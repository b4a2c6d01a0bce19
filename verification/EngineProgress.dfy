/** Without cancellation the engine neither spins nor gets stuck: it stops only when every job is done. */
module EngineProgress {
  import opened Bags
  import opened Engine
  import opened EngineConservation

  /** How many steps a worker has before it selects again, and a pump before it waits or is idle. */
  function WorkerLeft(w: Worker): nat
  {
    match w
    case Unstarted => 3
    case Launched => 3
    case InDoJob(_) => 5
    case CountingCompleted(_) => 4
    case PushingChildren(_, _) => 3
    case CountingFailed(_) => 2
    case SendingResult(_) => 1
    case SendingFailure(_) => 1
    case _ => 0
  }

  /** An offered job is still to be delivered and processed, and then the pump polls again. */
  function PumpLeft(p: Pump): nat
  {
    match p
    case Offering(_) => 8
    case AtTop => 2
    case AtMiddle => 1
    case _ => 0
  }

  function MainLeft(m: Main): nat
  {
    match m
    case Initialising => 3
    case ClosingResults => 2
    case ClosingFailed => 1
    case _ => 0
  }

  /** The steps left if nothing more is pushed. */
  function Left(s: State): nat
  {
    10 * |s.spawned| + 9 * |s.waiting| + Total(s.workers, WorkerLeft) + Total(s.pumps, PumpLeft) + MainLeft(s.main)
  }

  lemma PumpStepSpends(s: State, i: nat, a: PumpStep)
    requires PumpEnabled(s, i, a) && !Done(s)
    ensures 1 + Left(DoPump(s, i, a)) <= Left(s)
  {
    TotalUpdate(s.pumps, PumpLeft, i, PumpGoesTo(s.pumps[i], a));
    if a.Receive? { assert |s.waiting - {a.t}| == |s.waiting| - 1; }
  }

  lemma WorkerStepSpends(s: State, i: nat, a: WorkerStep)
    requires ShapeAt(s, i) && WorkerEnabled(s, i, a) && !Done(s)
    ensures 1 + Left(DoWorker(s, i, a)) <= Left(s)
  {
    TotalUpdate(s.workers, WorkerLeft, i, WorkerGoesTo(s.ctx, s.pumps[i], a));
    TotalUpdate(s.pumps, PumpLeft, i, PumpLeftAt(s.pumps[i], a));
  }

  lemma MoveSpends(s: State, i: nat, a: JobStep)
    requires JobEnabled(s, i, a)
    ensures Left(Move(s, i, a)) + (if a.PushChild? then 0 else 1) <= Left(s)
  {
    TotalUpdate(s.workers, WorkerLeft, i, JobGoesTo(s, s.workers[i], a));
  }

  lemma MainStepSpends(s: State, a: MainStep)
    requires Shape(s) && MainEnabled(s, a) && !Done(s) && !Done(DoMain(s, a))
    ensures 1 + Left(DoMain(s, a)) <= Left(s)
  {
    if a.InitSucceeds? {
      forall i | 0 <= i < |s.workers| ensures s.workers[i] == Unstarted {
        assert WorkerShape(s.main, s.ctx, s.workers[i], s.pumps[i]);
      }
      TotalPointwise(s.workers, DoMain(s, a).workers, WorkerLeft);
    }
  }

  lemma PusherStepSpends(s: State, a: PusherStep)
    requires PusherEnabled(s, a) && !Done(s)
    ensures 1 + Left(DoPusher(s, a)) <= Left(s) + 11 * (|DoPusher(s, a).pushed| - |s.pushed|)
  {
    if a.Park? { assert |s.spawned - {a.t}| == |s.spawned| - 1; }
  }

  /** A push pays for all steps of its job, and every other step uses one up. */
  lemma StepSpends(s: State, a: Action)
    requires Shape(s) && Enabled(s, a) && !Done(s) && !Done(Do(s, a))
    ensures 1 + Left(Do(s, a)) <= Left(s) + 11 * (|Do(s, a).pushed| - |s.pushed|)
  {
    match a {
      case ByPusher(p) => PusherStepSpends(s, p);
      case ByPump(i, p) => PumpStepSpends(s, i, p);
      case ByWorker(i, w) =>
        assert ShapeAt(s, i);
        WorkerStepSpends(s, i, w);
      case ByJob(i, j) => MoveSpends(s, i, j);
      case ByMain(m) => MainStepSpends(s, m);
    }
  }

  lemma {:induction false} DoneStaysDone(s: State, acts: seq<Action>)
    requires Possible(s, acts) && Done(s)
    ensures Done(After(s, acts))
    decreases |acts|
  {
    if acts != [] { DoneStaysDone(Do(s, acts[0]), acts[1..]); }
  }

  lemma {:induction false} RunSpends(s: State, acts: seq<Action>)
    requires Sound(s) && Possible(s, acts) && !Done(After(s, acts))
    ensures |acts| + Left(After(s, acts)) <= Left(s) + 11 * (|After(s, acts).pushed| - |s.pushed|)
    decreases |acts|
  {
    if acts != [] {
      var s' := Do(s, acts[0]);
      if Done(s) { DoneStaysDone(s, acts); }
      if Done(s') { DoneStaysDone(s', acts[1..]); }
      StepKeepsSound(s, acts[0]);
      StepSpends(s, acts[0]);
      RunSpends(s', acts[1..]);
    }
  }

  lemma {:induction false} SumOfConstant(workers: seq<Worker>)
    requires forall i | 0 <= i < |workers| :: workers[i] == Unstarted
    ensures Total(workers, WorkerLeft) == 3 * |workers|
  {
    if workers != [] { SumOfConstant(workers[1..]); }
  }

  /** The engine never spins: without cancellation, `n` workers that have handled `k` pushed jobs have
      taken, with everybody else, at most 11 * k + 3 * n + 3 steps. */
  lemma RunsAreShort(n: nat, withFailed: bool, acts: seq<Action>)
    requires Possible(Initial(n, withFailed), acts) && !Done(After(Initial(n, withFailed), acts))
    ensures |acts| <= 11 * |After(Initial(n, withFailed), acts).pushed| + 3 * n + 3
  {
    var s := Initial(n, withFailed);
    InitialIsSound(n, withFailed);
    SumOfConstant(s.workers);
    TotalNothing(s.pumps, PumpLeft);
    RunSpends(s, acts);
  }

  /** What the outside world does: it pushes, it cancels, and it receives results and failures. */
  predicate FromOutside(a: Action)
  {
    || (a.ByPusher? && a.pusher.PushSeed?)
    || (a.ByMain? && (a.main.CancelContext? || a.main.WatcherCancels?))
    || (a.ByJob? && (a.job.SendResult? || a.job.SendFailure?))
  }

  /** The engine can take no step of its own. */
  ghost predicate Stuck(s: State)
  {
    forall a | Enabled(s, a) :: FromOutside(a)
  }

  /** Worker `i` stands at the unguarded send of a result. */
  predicate SendsResult(s: State, i: nat) { i < |s.workers| && s.workers[i].SendingResult? }

  /** A started worker and its pump can go on as long as they have, or could get, a job and the worker does
      not wait for somebody to receive a result. A failure that nobody receives times out. */
  lemma PairCanStep(s: State, i: nat, t: Ticket) returns (a: Action)
    requires ShapeAt(s, i) && s.main == Waiting && !Done(s) && !s.crashed && t < |s.pushed| && !SendsResult(s, i)
    requires t in s.waiting || s.pumps[i].Offering? || WorkerLoad(s.workers[i]) != multiset{}
    ensures Enabled(s, a) && !FromOutside(a)
  {
    match s.workers[i] {
      case Launched => a := ByWorker(i, StartWorker);
      case InDoJob(_) => a := ByJob(i, JobFails);
      case CountingCompleted(_) => a := ByJob(i, CountCompleted);
      case PushingChildren(_, _) => a := ByJob(i, if ChildrenLeft(s, s.workers[i]) then PushChild else PushesDone);
      case CountingFailed(_) => a := ByJob(i, CountFailed);
      case SendingFailure(_) => a := ByJob(i, FailureTimesOut);
      case Selecting => a := SelectingPairCanStep(s, i, t);
      case _ => assert false;
    }
  }

  lemma SelectingPairCanStep(s: State, i: nat, t: Ticket) returns (a: Action)
    requires ShapeAt(s, i) && !Done(s) && !s.crashed && t < |s.pushed| && s.workers[i] == Selecting
    requires t in s.waiting || s.pumps[i].Offering?
    ensures Enabled(s, a) && !FromOutside(a)
  {
    if s.pumps[i].Offering? {
      a := ByWorker(i, Deliver);
    } else if r :| r in s.waiting && Ready(s, r, Polls(s.pumps[i])) {
      a := ByPump(i, Receive(r));
    } else {
      assert !Ready(s, t, Polls(s.pumps[i]));
      a := ByPump(i, Default);
    }
  }

  /** The worker that ticket `t` depends on, if there is one only: its own, or its pump's. */
  predicate DependsOn(s: State, t: Ticket, i: nat)
  {
    && i < |s.workers| && i < |s.pumps|
    && (t in s.waiting || s.pumps[i] == Offering(t) || t in WorkerLoad(s.workers[i]))
  }

  /** The engine never gets stuck by itself. Without cancellation, once the workers have been started, it can
      take no step of its own only when every pushed job is finished or depends on workers that wait for
      their results to be received: a job still with the provider on all of them, any other on one. */
  lemma StuckOnlyBehindResults(n: nat, withFailed: bool, acts: seq<Action>, t: Ticket, i: nat)
    requires Possible(Initial(n, withFailed), acts)
    ensures var s := After(Initial(n, withFailed), acts);
            s.main == Waiting && !Done(s) && Stuck(s) && t < |s.pushed| && t !in s.finished ==>
              && t !in s.spawned
              && (n > 0 ==> exists k :: DependsOn(s, t, k) && SendsResult(s, k))
              && (DependsOn(s, t, i) ==> SendsResult(s, i))
  {
    ReachableIsSound(n, withFailed, acts);
    var s := After(Initial(n, withFailed), acts);
    WorkersStay(Initial(n, withFailed), acts);
    if s.main == Waiting && !Done(s) && Stuck(s) && t < |s.pushed| && t !in s.finished {
      assert !s.crashed;
      if t in s.spawned { assert Enabled(s, ByPusher(Park(t))); }
      if DependsOn(s, t, i) { DependentPairIsStuck(s, t, i); }
      if n > 0 {
        var k := SomePair(s, t);
        DependentPairIsStuck(s, t, k);
      }
    }
  }

  lemma DependentPairIsStuck(s: State, t: Ticket, i: nat)
    requires Sound(s) && s.main == Waiting && !Done(s) && Stuck(s) && t < |s.pushed| && DependsOn(s, t, i)
    ensures SendsResult(s, i)
  {
    assert ShapeAt(s, i);
    if !SendsResult(s, i) { var a := PairCanStep(s, i, t); }
  }

  lemma SomePair(s: State, t: Ticket) returns (k: nat)
    requires Sound(s) && |s.workers| > 0 && !Done(s)
    requires t < |s.pushed| && t !in s.finished && t !in s.spawned
    ensures DependsOn(s, t, k)
  {
    var p := PlaceOf(s, t);
    match p {
      case AtPump(i) => k := i;
      case AtWorker(i) => k := i;
      case _ => k := 0;
    }
  }

  /** If moreover every result is received, the engine is stuck only when every pushed job is finished. */
  lemma StuckOnlyWhenAllJobsAreFinished(n: nat, withFailed: bool, acts: seq<Action>, t: Ticket)
    requires n > 0 && Possible(Initial(n, withFailed), acts)
    ensures var s := After(Initial(n, withFailed), acts);
            s.main == Waiting && !Done(s) && Stuck(s) && (forall i: nat :: !SendsResult(s, i)) && t < |s.pushed|
            ==> t in s.finished
  {
    StuckOnlyBehindResults(n, withFailed, acts, t, 0);
  }

  lemma {:induction false} WorkersStay(s: State, acts: seq<Action>)
    requires Possible(s, acts)
    ensures |After(s, acts).workers| == |s.workers|
    decreases |acts|
  {
    if acts != [] { WorkersStay(Do(s, acts[0]), acts[1..]); }
  }
}
