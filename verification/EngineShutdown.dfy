/** Cancellation, the crash it can cause, and the closing of the output channels. */
module EngineShutdown {
  import opened Engine
  import opened EngineConservation
  import EngineProgress

  predicate SendsResult(a: Action) { a.ByJob? && a.job.SendResult? }

  predicate SendsFailure(a: Action) { a.ByJob? && a.job.SendFailure? }

  predicate ClosesResults(a: Action) { a.ByMain? && a.main.CloseResults? }

  predicate ClosesFailed(a: Action) { a.ByMain? && a.main.CloseFailed? }

  /** Whatever step comes next in a run, it neither sends on a closed channel, nor closes a channel
      twice, nor closes a failure channel that was never made. */
  lemma NoStepTouchesAClosedChannel(n: nat, withFailed: bool, acts: seq<Action>, a: Action)
    requires Possible(Initial(n, withFailed), acts) && Enabled(After(Initial(n, withFailed), acts), a)
    ensures var s := After(Initial(n, withFailed), acts);
            && (SendsResult(a) || ClosesResults(a) ==> s.resultsCloses == 0)
            && (SendsFailure(a) || ClosesFailed(a) ==> s.failedCloses == 0)
            && (ClosesFailed(a) ==> s.withFailed)
  {
    ReachableIsSound(n, withFailed, acts);
    var s := After(Initial(n, withFailed), acts);
    if a.ByJob? { assert WorkerShape(s.main, s.ctx, s.workers[a.i], s.pumps[a.i]); }
  }

  /** A channel is closed only when every worker has exited or, after a failed init job, was never
      started; and when `Start` has returned, each channel has been closed exactly once. */
  lemma ChannelsCloseOnceAfterTheWorkers(n: nat, withFailed: bool, acts: seq<Action>, i: nat)
    requires Possible(Initial(n, withFailed), acts)
    ensures var s := After(Initial(n, withFailed), acts);
            && s.resultsCloses <= 1 && s.failedCloses <= 1
            && (s.resultsCloses + s.failedCloses > 0 && i < |s.workers| ==>
                  s.workers[i] == Exited || s.workers[i] == Unstarted)
            && (s.main == Returned ==> s.resultsCloses == 1 && s.failedCloses == One(s.withFailed))
  {
    ReachableIsSound(n, withFailed, acts);
    var s := After(Initial(n, withFailed), acts);
    if i < |s.workers| { assert WorkerShape(s.main, s.ctx, s.workers[i], s.pumps[i]); }
  }

  /** Before cancellation no pump offers, and no worker receives, a job that was never pushed. */
  lemma OnlyPushedJobsBeforeCancellation(n: nat, withFailed: bool, acts: seq<Action>, i: nat)
    requires Possible(Initial(n, withFailed), acts)
    ensures var s := After(Initial(n, withFailed), acts);
            && (s.crashed ==> Done(s))
            && (i < |s.pumps| && s.pumps[i] == OfferingZero ==> Done(s))
  {
    ReachableIsSound(n, withFailed, acts);
    var s := After(Initial(n, withFailed), acts);
    if i < |s.pumps| { assert WorkerShape(s.main, s.ctx, s.workers[i], s.pumps[i]); }
  }

  /** Only the outside world can let the context end by a deadline. */
  lemma {:induction false} DeadlinesComeFromOutside(s: State, acts: seq<Action>)
    requires Possible(s, acts) && s.ctx != DeadlineExceeded && After(s, acts).ctx == DeadlineExceeded
    ensures ByMain(CancelContext(DeadlineExceeded)) in acts
    decreases |acts|
  {
    if acts != [] && Do(s, acts[0]).ctx != DeadlineExceeded {
      DeadlinesComeFromOutside(Do(s, acts[0]), acts[1..]);
    }
  }

  /** A worker asks the provider for new channels only after a deadline that was set outside, never after a
      plain cancellation or one by the watcher, and it leaves only when the context is done. */
  lemma WorkersRestartOnlyAfterADeadline(n: nat, withFailed: bool, acts: seq<Action>, i: nat)
    requires Possible(Initial(n, withFailed), acts)
    ensures var s := After(Initial(n, withFailed), acts);
            i < |s.workers| ==>
              && (s.workers[i] == Restarting ==> ByMain(CancelContext(DeadlineExceeded)) in acts)
              && (s.workers[i] == Exited ==> Done(s))
  {
    ReachableIsSound(n, withFailed, acts);
    var s := After(Initial(n, withFailed), acts);
    if i < |s.workers| { assert WorkerShape(s.main, s.ctx, s.workers[i], s.pumps[i]); }
    if s.ctx == DeadlineExceeded { DeadlinesComeFromOutside(Initial(n, withFailed), acts); }
  }

  ghost predicate CrashesBy(s: State, acts: seq<Action>)
  {
    Possible(s, acts) && After(s, acts).crashed
  }

  lemma CrashLater(s: State, a: Action, acts: seq<Action>)
    requires Enabled(s, a) && CrashesBy(Do(s, a), acts)
    ensures CrashesBy(s, [a] + acts)
  {
    assert ([a] + acts)[1..] == acts;
  }

  /** After cancellation it does happen: when the context is cancelled between the first and the second
      poll of an idle pump, the nil job can reach the worker, and the process crashes. */
  lemma CancellationCanCrash(n: nat, withFailed: bool)
    requires n > 0
    ensures exists acts :: CrashesBy(Initial(n, withFailed), acts)
  {
    var s0 := Initial(n, withFailed);
    var init, start := ByMain(InitSucceeds), ByWorker(0, StartWorker);
    var s1 := Do(s0, init);
    var s2 := Do(s1, start);
    var acts := CancelledBetweenPolls(s2);
    CrashLater(s1, start, acts);
    CrashLater(s0, init, [start] + acts);
  }

  lemma CancelledBetweenPolls(s: State) returns (acts: seq<Action>)
    requires !s.crashed && !Done(s) && s.waiting == {} && |s.pumps| > 0 && |s.workers| > 0
    requires s.pumps[0] == AtTop && s.workers[0] == Selecting
    ensures CrashesBy(s, acts)
  {
    var default, cancel := ByPump(0, Default), ByMain(CancelContext(Canceled));
    var see, deliver := ByPump(0, PumpStep.SeeDone), ByWorker(0, DeliverZero);
    var s1 := Do(s, default);
    var s2 := Do(s1, cancel);
    var s3 := Do(s2, see);
    assert CrashesBy(Do(s3, deliver), []);
    CrashLater(s3, deliver, []);
    CrashLater(s2, see, [deliver] + []);
    CrashLater(s1, cancel, [see] + ([deliver] + []));
    CrashLater(s, default, [cancel] + ([see] + ([deliver] + [])));
    acts := [default] + ([cancel] + ([see] + ([deliver] + [])));
  }

  // When exactly cancellation can crash the process.

  /** The nil job is on its way to worker `i`: its pump offers it, or is about to. */
  predicate AtRisk(s: State, i: nat)
  {
    && i < |s.pumps| && i < |s.workers|
    && (s.pumps[i] == AtMiddle || s.pumps[i] == OfferingZero) && s.workers[i] != Exited
  }

  /** The process lives, the context is done, and no worker is at risk. */
  ghost predicate OutOfRisk(s: State)
  {
    !s.crashed && Done(s) && forall i: nat :: !AtRisk(s, i)
  }

  lemma PumpStepStaysOutOfRisk(s: State, k: nat, a: PumpStep)
    requires OutOfRisk(s) && PumpEnabled(s, k, a)
    ensures OutOfRisk(DoPump(s, k, a))
  {
    forall i: nat ensures !AtRisk(DoPump(s, k, a), i) {
      assert !AtRisk(s, i) && !AtRisk(s, k);
    }
  }

  lemma WorkerStepStaysOutOfRisk(s: State, k: nat, a: WorkerStep)
    requires OutOfRisk(s) && WorkerEnabled(s, k, a)
    ensures OutOfRisk(DoWorker(s, k, a))
  {
    forall i: nat ensures !AtRisk(DoWorker(s, k, a), i) {
      assert !AtRisk(s, i) && !AtRisk(s, k);
    }
    assert !AtRisk(s, k);
  }

  lemma JobStepStaysOutOfRisk(s: State, k: nat, a: JobStep)
    requires OutOfRisk(s) && JobEnabled(s, k, a)
    ensures OutOfRisk(DoJobStep(s, k, a))
  {
    forall i: nat ensures !AtRisk(DoJobStep(s, k, a), i) {
      assert !AtRisk(s, i);
    }
  }

  lemma MainStepStaysOutOfRisk(s: State, a: MainStep)
    requires Shape(s) && OutOfRisk(s) && MainEnabled(s, a)
    ensures OutOfRisk(DoMain(s, a))
  {
    forall i: nat ensures !AtRisk(DoMain(s, a), i) {
      assert !AtRisk(s, i);
      if i < |s.workers| { assert WorkerShape(s.main, s.ctx, s.workers[i], s.pumps[i]); }
    }
  }

  lemma StepStaysOutOfRisk(s: State, a: Action)
    requires Shape(s) && OutOfRisk(s) && Enabled(s, a)
    ensures OutOfRisk(Do(s, a))
  {
    match a {
      case ByPusher(p) =>
        forall i: nat ensures !AtRisk(Do(s, a), i) { assert !AtRisk(s, i); }
      case ByPump(k, p) => PumpStepStaysOutOfRisk(s, k, p);
      case ByWorker(k, w) => WorkerStepStaysOutOfRisk(s, k, w);
      case ByJob(k, j) => JobStepStaysOutOfRisk(s, k, j);
      case ByMain(m) => MainStepStaysOutOfRisk(s, m);
    }
  }

  lemma {:induction false} RunStaysOutOfRisk(s: State, acts: seq<Action>)
    requires Sound(s) && OutOfRisk(s) && Possible(s, acts)
    ensures OutOfRisk(After(s, acts))
    decreases |acts|
  {
    if acts != [] {
      StepKeepsSound(s, acts[0]);
      StepStaysOutOfRisk(s, acts[0]);
      RunStaysOutOfRisk(Do(s, acts[0]), acts[1..]);
    }
  }

  /** How many children the worker has yet to push. */
  function Unpushed(s: State, w: Worker): nat
  {
    if w.PushingChildren? && ChildrenLeft(s, w) then |s.log.successes[w.ticket]| - w.pushed else 0
  }

  /** A worker inside its job has a step that brings it nearer to its next select. */
  lemma WorkerGoesOn(s: State, i: nat) returns (a: JobStep)
    requires i < |s.workers| && WorkerLoad(s.workers[i]) != multiset{}
    ensures JobEnabled(s, i, a)
    ensures var s' := DoJobStep(s, i, a);
            var w, w' := s.workers[i], s'.workers[i];
            && (w' == Selecting || WorkerLoad(w') != multiset{})
            && (EngineProgress.WorkerLeft(w') < EngineProgress.WorkerLeft(w)
                || (EngineProgress.WorkerLeft(w') == EngineProgress.WorkerLeft(w) && Unpushed(s', w') < Unpushed(s, w)))
  {
    match s.workers[i] {
      case InDoJob(_) => a := JobFails;
      case CountingCompleted(_) => a := CountCompleted;
      case PushingChildren(_, _) => a := if ChildrenLeft(s, s.workers[i]) then PushChild else PushesDone;
      case SendingResult(_) => a := SendResult;
      case CountingFailed(_) => a := CountFailed;
      case SendingFailure(_) => a := FailureTimesOut;
    }
  }

  /** A worker at risk comes back to its select, and there receives the nil job. */
  lemma {:induction false} RiskBecomesCrash(s: State, i: nat) returns (acts: seq<Action>)
    requires ShapeAt(s, i) && AtRisk(s, i) && Done(s) && !s.crashed
    ensures CrashesBy(s, acts)
    decreases EngineProgress.WorkerLeft(s.workers[i]), Unpushed(s, s.workers[i]), s.pumps[i] == AtMiddle
  {
    if s.workers[i] != Selecting {
      var a := WorkerGoesOn(s, i);
      JobStepKeepsWorkerShape(s, i, a, i);
      acts := RiskBecomesCrash(Do(s, ByJob(i, a)), i);
      CrashLater(s, ByJob(i, a), acts);
      acts := [ByJob(i, a)] + acts;
    } else if s.pumps[i] == AtMiddle {
      var a := ByPump(i, PumpStep.SeeDone);
      acts := RiskBecomesCrash(Do(s, a), i);
      CrashLater(s, a, acts);
      acts := [a] + acts;
    } else {
      var a := ByWorker(i, DeliverZero);
      assert CrashesBy(Do(s, a), []);
      CrashLater(s, a, []);
      acts := [a] + [];
    }
  }

  /** From a state of any run in which the context is done and the process lives, some continuation crashes
      the process if and only if a worker that has not exited has its pump at the middle poll, or offering
      the nil job. */
  lemma CrashIsPossibleIff(n: nat, withFailed: bool, acts: seq<Action>)
    requires Possible(Initial(n, withFailed), acts)
    requires Done(After(Initial(n, withFailed), acts)) && !After(Initial(n, withFailed), acts).crashed
    ensures var s := After(Initial(n, withFailed), acts);
            (exists more :: CrashesBy(s, more)) <==> exists i :: AtRisk(s, i)
  {
    ReachableIsSound(n, withFailed, acts);
    var s := After(Initial(n, withFailed), acts);
    if i :| AtRisk(s, i) {
      assert ShapeAt(s, i);
      var more := RiskBecomesCrash(s, i);
    } else {
      forall more | Possible(s, more) ensures !CrashesBy(s, more) { RunStaysOutOfRisk(s, more); }
    }
  }

  /** The crash is a step of a worker that was at its select, and nothing happens after it. */
  lemma {:induction false} CrashedAtASelect(s: State, acts: seq<Action>)
    requires Possible(s, acts) && (s.crashed ==> exists i :: 0 <= i < |s.workers| && s.workers[i] == Selecting)
    ensures var s' := After(s, acts);
            s'.crashed ==> exists i :: 0 <= i < |s'.workers| && s'.workers[i] == Selecting
    decreases |acts|
  {
    if acts != [] {
      var a := acts[0];
      if Do(s, a).crashed { assert Do(s, a).workers[a.i] == Selecting; }
      CrashedAtASelect(Do(s, a), acts[1..]);
    }
  }

  /** A cancellation that comes before the workers have started their pumps is safe. */
  lemma EarlyCancellationIsSafe(n: nat, withFailed: bool, acts: seq<Action>, more: seq<Action>)
    requires Possible(Initial(n, withFailed), acts)
    requires var s := After(Initial(n, withFailed), acts);
             && Done(s) && (forall i | 0 <= i < |s.workers| :: s.workers[i] == Unstarted || s.workers[i] == Launched)
             && Possible(s, more)
    ensures !After(After(Initial(n, withFailed), acts), more).crashed
  {
    ReachableIsSound(n, withFailed, acts);
    var s := After(Initial(n, withFailed), acts);
    forall i: nat ensures !AtRisk(s, i) {
      if i < |s.workers| { assert ShapeAt(s, i); }
    }
    CrashedAtASelect(Initial(n, withFailed), acts);
    RunStaysOutOfRisk(s, more);
  }

  // `Start` can always return.

  ghost predicate Leads(s: State, acts: seq<Action>, t: State)
  {
    Possible(s, acts) && After(s, acts) == t
  }

  lemma Then(s: State, a: Action, acts: seq<Action>, t: State)
    requires Enabled(s, a) && Leads(Do(s, a), acts, t)
    ensures Leads(s, [a] + acts, t)
  {
    assert ([a] + acts)[1..] == acts;
  }

  lemma FirstLeads(s: State, acts: seq<Action>, t: State)
    requires Leads(s, acts, t) && acts != []
    ensures Enabled(s, acts[0]) && Leads(Do(s, acts[0]), acts[1..], t)
  {
  }

  lemma {:induction false} Append(s: State, acts: seq<Action>, t: State, more: seq<Action>, u: State)
    requires Leads(s, acts, t) && Leads(t, more, u)
    ensures Leads(s, acts + more, u)
    decreases |acts|
  {
    if acts == [] {
      assert acts + more == more;
    } else {
      FirstLeads(s, acts, t);
      Append(Do(s, acts[0]), acts[1..], t, more, u);
      Then(s, acts[0], acts[1..] + more, u);
      assert [acts[0]] + (acts[1..] + more) == acts + more;
    }
  }

  /** The workers are leaving: the context is done, `Start` waits for them, and the process lives. */
  ghost predicate Leaving(s: State)
  {
    Sound(s) && Done(s) && s.main == Waiting && !s.crashed
  }

  /** The step brings worker `i` nearer to its exit and touches no other worker. */
  ghost predicate BringsNearer(s: State, s': State, i: nat)
    requires i < |s.workers|
  {
    && |s'.workers| == |s.workers| && s'.workers == s.workers[i := s'.workers[i]] && s'.watcher == s.watcher
    && Remaining(s'.workers[i]) <= Remaining(s.workers[i])
    && (Remaining(s'.workers[i]) == Remaining(s.workers[i])
        ==> Unpushed(s', s'.workers[i]) < Unpushed(s, s.workers[i]))
  }

  lemma WorkerLeavesItsJob(s: State, i: nat) returns (a: JobStep)
    requires i < |s.workers| && WorkerLoad(s.workers[i]) != multiset{}
    ensures JobEnabled(s, i, a) && BringsNearer(s, DoJobStep(s, i, a), i)
    ensures DoJobStep(s, i, a).main == s.main && DoJobStep(s, i, a).crashed == s.crashed
  {
    a := WorkerGoesOn(s, i);
  }

  /** The next step of a worker on its way out. */
  lemma WorkerLeaves(s: State, i: nat) returns (a: Action)
    requires Leaving(s) && i < |s.workers| && s.workers[i] != Exited
    ensures Enabled(s, a) && Leaving(Do(s, a)) && BringsNearer(s, Do(s, a), i)
  {
    assert ShapeAt(s, i);
    if WorkerLoad(s.workers[i]) != multiset{} {
      var j := WorkerLeavesItsJob(s, i);
      a := ByJob(i, j);
    } else {
      a := ByWorker(i, if s.workers[i] == Launched then StartWorker
                       else if s.workers[i] == Selecting then Leave else Restart);
    }
    StepKeepsSound(s, a);
  }

  /** How many steps at most, children apart, a worker is away from its exit. */
  function Remaining(w: Worker): nat
  {
    match w
    case Exited => 0
    case Selecting => 1
    case Restarting => 2
    case _ => 2 + EngineProgress.WorkerLeft(w)
  }

  lemma {:induction false} WorkerExits(s: State, i: nat) returns (acts: seq<Action>, t: State)
    requires Leaving(s) && i < |s.workers|
    ensures Leads(s, acts, t) && Leaving(t)
    ensures t.workers == s.workers[i := Exited] && t.watcher == s.watcher
    decreases Remaining(s.workers[i]), Unpushed(s, s.workers[i])
  {
    if s.workers[i] == Exited {
      acts, t := [], s;
    } else {
      var a := WorkerLeaves(s, i);
      acts, t := WorkerExits(Do(s, a), i);
      Then(s, a, acts, t);
      acts := [a] + acts;
    }
  }

  lemma {:induction false} WorkersExit(s: State, k: nat) returns (acts: seq<Action>, t: State)
    requires Leaving(s) && k <= |s.workers| && forall i | 0 <= i < k :: s.workers[i] == Exited
    ensures Leads(s, acts, t) && Leaving(t) && t.watcher == s.watcher
    ensures forall i | 0 <= i < |t.workers| :: t.workers[i] == Exited
    decreases |s.workers| - k
  {
    if k == |s.workers| {
      acts, t := [], s;
    } else {
      var first, s1 := WorkerExits(s, k);
      acts, t := WorkersExit(s1, k + 1);
      Append(s, first, s1, acts, t);
      acts := first + acts;
    }
  }

  /** What `Start` does once the workers are gone. */
  lemma {:induction false} MainReturns(s: State) returns (acts: seq<Action>, t: State)
    requires Done(s) && !s.crashed && s.main != Initialising
    requires s.main == Waiting ==> s.watcher != NotWatching && forall i | 0 <= i < |s.workers| :: s.workers[i] == Exited
    ensures Leads(s, acts, t) && t.main == Returned
    decreases EngineProgress.MainLeft(s.main) + if s.main == Waiting then 5 else 0, s.watcher == Watching
  {
    if s.main == Returned {
      acts, t := [], s;
    } else {
      var a := ByMain(
        if s.main == ClosingResults then CloseResults
        else if s.main == ClosingFailed then CloseFailed
        else if s.watcher == Watching then WatcherSeesDone
        else WaitReturns);
      acts, t := MainReturns(Do(s, a));
      Then(s, a, acts, t);
      acts := [a] + acts;
    }
  }

  lemma LeavingReturns(s: State) returns (acts: seq<Action>, t: State)
    requires Leaving(s) && s.watcher != NotWatching
    ensures Leads(s, acts, t) && t.main == Returned
  {
    var first, s1 := WorkersExit(s, 0);
    acts, t := MainReturns(s1);
    Append(s, first, s1, acts, t);
    acts := first + acts;
  }

  lemma {:induction false} WatcherWatches(s: State, acts: seq<Action>)
    requires Possible(s, acts) && (s.main == Waiting ==> s.watcher != NotWatching)
    ensures After(s, acts).main == Waiting ==> After(s, acts).watcher != NotWatching
    decreases |acts|
  {
    if acts != [] { WatcherWatches(Do(s, acts[0]), acts[1..]); }
  }

  /** Nothing blocks the shutdown: from every state of any run in which the context is done and the process
      lives, there is a continuation in which `Start` returns, as long as results are received. */
  lemma ShutdownIsAlwaysPossible(n: nat, withFailed: bool, acts: seq<Action>)
    requires Possible(Initial(n, withFailed), acts)
    ensures var s := After(Initial(n, withFailed), acts);
            Done(s) && !s.crashed ==> exists more :: Possible(s, more) && After(s, more).main == Returned
  {
    ReachableIsSound(n, withFailed, acts);
    WatcherWatches(Initial(n, withFailed), acts);
    var s := After(Initial(n, withFailed), acts);
    if Done(s) && !s.crashed {
      if s.main == Initialising {
        var starts := ByMain(InitSucceeds);
        StepKeepsSound(s, starts);
        var more, t := LeavingReturns(Do(s, starts));
        Then(s, starts, more, t);
      } else if s.main == Waiting {
        var more, t := LeavingReturns(s);
      } else {
        var more, t := MainReturns(s);
      }
    }
  }
}
