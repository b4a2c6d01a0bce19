/** Every pushed job is in exactly one place. */
module EngineConservation {
  import opened Bags
  import opened Engine

  function One(b: bool): nat { if b then 1 else 0 }

  /** In how many places ticket `t` is: its pusher's goroutine, a pump, a worker, done or given up. */
  function Copies(s: State, t: Ticket): nat
  {
    One(t in s.spawned) + One(t in s.waiting) + Held(s.pumps, PumpLoad, t) + Held(s.workers, WorkerLoad, t)
    + One(t in s.finished) + One(t in s.dropped)
  }

  ghost predicate Conserved(s: State)
  {
    forall t: Ticket :: Copies(s, t) == One(t < |s.pushed|)
  }

  /** How the goroutines stand to each other: worker `i` owns pump `i`, and the traces that
      cancellation and shutdown leave. */
  ghost predicate Shape(s: State)
  {
    && |s.pumps| == |s.workers|
    && (forall i | 0 <= i < |s.workers| :: WorkerShape(s.main, s.ctx, s.workers[i], s.pumps[i]))
    && Traces(s)
  }

  predicate Traces(s: State)
  {
    && (s.dropped != {} || s.crashed ==> Done(s))
    && (s.watcher == WatcherGone ==> Done(s))
    && s.resultsCloses == One(s.main == ClosingFailed || s.main == Returned)
    && s.failedCloses == One(s.withFailed && s.main == Returned)
    && (s.main == ClosingFailed ==> s.withFailed)
  }

  predicate WorkerShape(main: Main, ctx: Context, w: Worker, p: Pump)
  {
    && (w == Unstarted || w == Launched <==> p == Absent)
    && (w == Restarting ==> p.Stopped? && ctx == DeadlineExceeded)
    && (w == Exited || p == OfferingZero || p.Stopped? ==> ctx != Alive)
    && (main == Initialising ==> w == Unstarted)
    && (main == Waiting ==> w != Unstarted)
    && (main != Initialising && main != Waiting ==> w == Unstarted || w == Exited)
  }

  ghost predicate Sound(s: State)
  {
    Shape(s) && Conserved(s)
  }

  lemma PushConserves(s: State, job: Job, origin: Origin)
    requires Conserved(s)
    ensures Conserved(Push(s, job, origin))
  {
    forall t: Ticket ensures Copies(Push(s, job, origin), t) == One(t < |s.pushed| + 1) {
      assert Copies(s, t) == One(t < |s.pushed|);
    }
  }

  lemma PusherStepConserves(s: State, a: PusherStep)
    requires Conserved(s) && PusherEnabled(s, a)
    ensures Conserved(DoPusher(s, a))
  {
    if a.PushSeed? {
      PushConserves(s, a.job, Seed);
    } else {
      forall t: Ticket ensures Copies(DoPusher(s, a), t) == One(t < |s.pushed|) {
        assert Copies(s, t) == One(t < |s.pushed|);
      }
    }
  }

  lemma PumpStepCopies(s: State, i: nat, a: PumpStep, t: Ticket)
    requires PumpEnabled(s, i, a)
    ensures Copies(DoPump(s, i, a), t) == Copies(s, t)
  {
    HeldUpdate(s.pumps, PumpLoad, i, PumpGoesTo(s.pumps[i], a), t);
  }

  /** A rendezvous moves the pump's ticket to the worker; the other steps touch no ticket. */
  lemma WorkerStepLoads(s: State, i: nat, a: WorkerStep, t: Ticket)
    requires ShapeAt(s, i) && WorkerEnabled(s, i, a)
    ensures PumpLoad(PumpLeftAt(s.pumps[i], a))[t] + WorkerLoad(WorkerGoesTo(s.ctx, s.pumps[i], a))[t]
            == PumpLoad(s.pumps[i])[t] + WorkerLoad(s.workers[i])[t]
  {
  }

  lemma WorkerStepCopies(s: State, i: nat, a: WorkerStep, t: Ticket)
    requires Shape(s) && WorkerEnabled(s, i, a)
    ensures Copies(DoWorker(s, i, a), t) == Copies(s, t)
  {
    var w, p := WorkerGoesTo(s.ctx, s.pumps[i], a), PumpLeftAt(s.pumps[i], a);
    HeldUpdate(s.pumps, PumpLoad, i, p, t);
    HeldUpdate(s.workers, WorkerLoad, i, w, t);
    assert ShapeAt(s, i);
    WorkerStepLoads(s, i, a, t);
  }

  /** A worker keeps its ticket until it is through with the job. */
  lemma MoveLoads(s: State, i: nat, a: JobStep)
    requires JobEnabled(s, i, a)
    ensures var w := JobGoesTo(s, s.workers[i], a);
            WorkerLoad(w) == if w == Selecting then multiset{} else WorkerLoad(s.workers[i])
    ensures WorkerLoad(s.workers[i]) == multiset{s.workers[i].ticket}
  {
  }

  lemma MoveHeld(s: State, i: nat, a: JobStep, t: Ticket)
    requires JobEnabled(s, i, a)
    ensures var u, w := s.workers[i].ticket, JobGoesTo(s, s.workers[i], a);
            && Held(s.workers[i := w], WorkerLoad, t)
               == Held(s.workers, WorkerLoad, t) - One(t == u && w == Selecting)
            && (t == u ==> Held(s.workers, WorkerLoad, t) > 0)
  {
    MoveLoads(s, i, a);
    HeldUpdate(s.workers, WorkerLoad, i, JobGoesTo(s, s.workers[i], a), t);
    HeldContains(s.workers, WorkerLoad, i, t);
  }

  lemma MoveCopies(s: State, i: nat, a: JobStep, t: Ticket)
    requires Copies(s, t) <= 1 && JobEnabled(s, i, a)
    ensures Copies(Move(s, i, a), t) == Copies(s, t)
  {
    MoveHeld(s, i, a, t);
  }

  lemma JobStepConserves(s: State, i: nat, a: JobStep)
    requires Conserved(s) && JobEnabled(s, i, a)
    ensures Conserved(DoJobStep(s, i, a))
  {
    var s1 := Move(s, i, a);
    forall t: Ticket ensures Copies(s1, t) == One(t < |s1.pushed|) {
      assert Copies(s, t) == One(t < |s.pushed|);
      MoveCopies(s, i, a, t);
    }
    if a.PushChild? {
      PushConserves(s1, NextChild(s, s.workers[i]), ChildOf(s.workers[i].ticket));
    }
  }

  lemma MainStepCopies(s: State, a: MainStep, t: Ticket)
    requires Shape(s) && MainEnabled(s, a)
    ensures Copies(DoMain(s, a), t) == Copies(s, t)
  {
    if a.InitSucceeds? {
      forall w | w in s.workers ensures t !in WorkerLoad(w) {
        var i :| 0 <= i < |s.workers| && s.workers[i] == w;
        assert WorkerShape(s.main, s.ctx, s.workers[i], s.pumps[i]);
      }
      HeldByNobody(s.workers, WorkerLoad, t);
      HeldByNobody(DoMain(s, a).workers, WorkerLoad, t);
    }
  }

  lemma StepConserves(s: State, a: Action)
    requires Sound(s) && Enabled(s, a)
    ensures Conserved(Do(s, a))
  {
    match a {
      case ByPusher(p) => PusherStepConserves(s, p);
      case ByJob(i, j) => JobStepConserves(s, i, j);
      case _ =>
        forall t: Ticket ensures Copies(Do(s, a), t) == One(t < |s.pushed|) {
          assert Copies(s, t) == One(t < |s.pushed|);
          match a {
            case ByPump(i, p) => PumpStepCopies(s, i, p, t);
            case ByWorker(i, w) => WorkerStepCopies(s, i, w, t);
            case ByMain(m) => MainStepCopies(s, m, t);
          }
        }
    }
  }

  ghost predicate ShapeAt(s: State, i: nat)
  {
    i < |s.workers| == |s.pumps| && WorkerShape(s.main, s.ctx, s.workers[i], s.pumps[i])
  }

  lemma PumpStepKeepsWorkerShape(s: State, k: nat, a: PumpStep, i: nat)
    requires ShapeAt(s, i) && PumpEnabled(s, k, a)
    ensures ShapeAt(DoPump(s, k, a), i)
  {
  }

  lemma WorkerStepKeepsWorkerShape(s: State, k: nat, a: WorkerStep, i: nat)
    requires ShapeAt(s, i) && WorkerEnabled(s, k, a)
    ensures ShapeAt(DoWorker(s, k, a), i)
  {
  }

  lemma JobStepKeepsWorkerShape(s: State, k: nat, a: JobStep, i: nat)
    requires ShapeAt(s, i) && JobEnabled(s, k, a)
    ensures ShapeAt(DoJobStep(s, k, a), i)
  {
  }

  lemma MainStepKeepsWorkerShape(s: State, a: MainStep, i: nat)
    requires ShapeAt(s, i) && MainEnabled(s, a)
    ensures ShapeAt(DoMain(s, a), i)
  {
  }

  /** The worker/pump pairs a step leaves in shape. */
  lemma StepKeepsWorkerShape(s: State, a: Action, i: nat)
    requires ShapeAt(s, i) && Enabled(s, a)
    ensures ShapeAt(Do(s, a), i)
  {
    match a {
      case ByPusher(_) =>
      case ByPump(k, p) => PumpStepKeepsWorkerShape(s, k, p, i);
      case ByWorker(k, w) => WorkerStepKeepsWorkerShape(s, k, w, i);
      case ByJob(k, j) => JobStepKeepsWorkerShape(s, k, j, i);
      case ByMain(m) => MainStepKeepsWorkerShape(s, m, i);
    }
  }

  lemma WorkerStepKeepsTraces(s: State, k: nat, a: WorkerStep)
    requires Traces(s) && ShapeAt(s, k) && WorkerEnabled(s, k, a)
    ensures Traces(DoWorker(s, k, a))
  {
  }

  lemma MainStepKeepsTraces(s: State, a: MainStep)
    requires Traces(s) && MainEnabled(s, a)
    ensures Traces(DoMain(s, a))
  {
  }

  lemma StepKeepsTraces(s: State, a: Action)
    requires Shape(s) && Enabled(s, a)
    ensures Traces(Do(s, a))
  {
    match a {
      case ByWorker(k, w) => assert ShapeAt(s, k); WorkerStepKeepsTraces(s, k, w);
      case ByMain(m) => MainStepKeepsTraces(s, m);
      case _ =>
    }
  }

  lemma StepKeepsSizes(s: State, a: Action)
    requires |s.pumps| == |s.workers| && Enabled(s, a)
    ensures |Do(s, a).pumps| == |Do(s, a).workers| == |s.workers|
  {
  }

  lemma ShapeOf(s: State)
    requires |s.pumps| == |s.workers| && Traces(s) && forall i: nat | i < |s.workers| :: ShapeAt(s, i)
    ensures Shape(s)
  {
    forall i: nat | i < |s.workers| ensures WorkerShape(s.main, s.ctx, s.workers[i], s.pumps[i]) {
      assert ShapeAt(s, i);
    }
  }

  lemma StepKeepsShape(s: State, a: Action)
    requires Shape(s) && Enabled(s, a)
    ensures Shape(Do(s, a))
  {
    StepKeepsSizes(s, a);
    StepKeepsTraces(s, a);
    forall i: nat | i < |s.workers| ensures ShapeAt(Do(s, a), i) {
      assert ShapeAt(s, i);
      StepKeepsWorkerShape(s, a, i);
    }
    ShapeOf(Do(s, a));
  }

  lemma StepKeepsSound(s: State, a: Action)
    requires Sound(s) && Enabled(s, a)
    ensures Sound(Do(s, a))
  {
    StepKeepsShape(s, a);
    StepConserves(s, a);
  }

  lemma InitialIsSound(n: nat, withFailed: bool)
    ensures Sound(Initial(n, withFailed))
  {
    var s := Initial(n, withFailed);
    forall t: Ticket ensures Copies(s, t) == 0 {
      HeldByNobody(s.pumps, PumpLoad, t);
      HeldByNobody(s.workers, WorkerLoad, t);
    }
  }

  lemma {:induction false} RunKeepsSound(s: State, acts: seq<Action>)
    requires Sound(s) && Possible(s, acts)
    ensures Sound(After(s, acts))
    decreases |acts|
  {
    if acts != [] {
      StepKeepsSound(s, acts[0]);
      RunKeepsSound(Do(s, acts[0]), acts[1..]);
    }
  }

  lemma ReachableIsSound(n: nat, withFailed: bool, acts: seq<Action>)
    requires Possible(Initial(n, withFailed), acts)
    ensures Sound(After(Initial(n, withFailed), acts))
  {
    InitialIsSound(n, withFailed);
    RunKeepsSound(Initial(n, withFailed), acts);
  }

  datatype Place = AtPusher | AtPump(i: nat) | AtWorker(i: nat) | AtEnd | GivenUp

  ghost predicate IsAt(s: State, t: Ticket, p: Place)
  {
    match p
    case AtPusher => t in s.spawned || t in s.waiting
    case AtPump(i) => i < |s.pumps| && s.pumps[i] == Offering(t)
    case AtWorker(i) => i < |s.workers| && t in WorkerLoad(s.workers[i])
    case AtEnd => t in s.finished
    case GivenUp => t in s.dropped
  }

  ghost predicate OnlyAt(s: State, t: Ticket, p: Place)
  {
    IsAt(s, t, p) && forall q :: IsAt(s, t, q) ==> q == p
  }

  /** In every reachable state each pushed job is in exactly one place, nothing else is anywhere,
      and a job is given up only after cancellation. */
  lemma EveryJobInExactlyOnePlace(n: nat, withFailed: bool, acts: seq<Action>, t: Ticket)
    requires Possible(Initial(n, withFailed), acts)
    ensures var s := After(Initial(n, withFailed), acts);
            && (t < |s.pushed| <==> exists p :: OnlyAt(s, t, p))
            && (t >= |s.pushed| <==> forall p :: !IsAt(s, t, p))
            && (IsAt(s, t, GivenUp) ==> Done(s))
  {
    ReachableIsSound(n, withFailed, acts);
    var s := After(Initial(n, withFailed), acts);
    var p := PlaceOf(s, t);
    if t < |s.pushed| { assert OnlyAt(s, t, p); }
  }

  /** A place shows in the count of copies. */
  lemma PlaceCounts(s: State, t: Ticket, p: Place)
    requires IsAt(s, t, p)
    ensures Copies(s, t) >= 1
    ensures p.AtPump? ==> Held(s.pumps, PumpLoad, t) >= 1
    ensures p.AtWorker? ==> Held(s.workers, WorkerLoad, t) >= 1
  {
    match p {
      case AtPump(i) => HeldContains(s.pumps, PumpLoad, i, t);
      case AtWorker(i) => HeldContains(s.workers, WorkerLoad, i, t);
      case _ =>
    }
  }

  lemma OnlyPlace(s: State, t: Ticket, p: Place, q: Place)
    requires Copies(s, t) <= 1 && IsAt(s, t, p) && IsAt(s, t, q)
    ensures p == q
  {
    PlaceCounts(s, t, p);
    PlaceCounts(s, t, q);
    match (p, q) {
      case (AtPump(i), AtPump(j)) =>
        if i < j { HeldByTwo(s.pumps, PumpLoad, i, j, t); }
        if j < i { HeldByTwo(s.pumps, PumpLoad, j, i, t); }
      case (AtWorker(i), AtWorker(j)) =>
        if i < j { HeldByTwo(s.workers, WorkerLoad, i, j, t); }
        if j < i { HeldByTwo(s.workers, WorkerLoad, j, i, t); }
      case _ =>
    }
  }

  lemma PlaceOf(s: State, t: Ticket) returns (p: Place)
    requires Sound(s)
    ensures t < |s.pushed| ==> IsAt(s, t, p)
    ensures forall q :: IsAt(s, t, q) ==> q == p && t < |s.pushed|
  {
    assert Copies(s, t) == One(t < |s.pushed|);
    if Held(s.pumps, PumpLoad, t) > 0 {
      var i := Holder(s.pumps, PumpLoad, t);
      p := AtPump(i);
    } else if Held(s.workers, WorkerLoad, t) > 0 {
      var i := Holder(s.workers, WorkerLoad, t);
      p := AtWorker(i);
    } else {
      p := if t in s.finished then AtEnd else if t in s.dropped then GivenUp else AtPusher;
    }
    forall q | IsAt(s, t, q) ensures q == p && t < |s.pushed| {
      PlaceCounts(s, t, q);
      OnlyPlace(s, t, p, q);
    }
  }
}
