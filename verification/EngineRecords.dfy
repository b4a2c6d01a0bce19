/** What becomes of a job: processed once, recorded once, counted once, its children pushed in order. */
module EngineRecords {
  import opened Bags
  import opened Engine
  import opened EngineConservation

  /** The jobs pushed as children of ticket `t`, in the order of their pushes. */
  function Children(pushed: seq<PushRecord>, t: Ticket): seq<Job>
  {
    if pushed == [] then []
    else
      var last := pushed[|pushed| - 1];
      Children(pushed[..|pushed| - 1], t) + if last.origin == ChildOf(t) then [last.job] else []
  }

  lemma ChildrenGrow(pushed: seq<PushRecord>, r: PushRecord, t: Ticket)
    ensures Children(pushed + [r], t) == Children(pushed, t) + if r.origin == ChildOf(t) then [r.job] else []
  {
    assert (pushed + [r])[..|pushed|] == pushed;
  }

  datatype Returned = Nothing | Failure | Success(next: seq<Job>)

  /** Everything observed about one ticket. */
  datatype Record = Record(
    started: bool,
    returned: Returned,
    pushError: bool,
    resultSent: bool,
    failureSent: bool,
    unreported: bool,
    children: seq<Job>)

  function RecordOf(s: State, t: Ticket): Record
  {
    Record(t in s.log.started,
           if t in s.log.successes then Success(s.log.successes[t])
           else if t in s.log.errors then Failure else Nothing,
           t in s.log.pushErrors,
           t in s.log.results,
           t in s.log.failures,
           t in s.log.unreported,
           Children(s.pushed, t))
  }

  const Untouched := Record(false, Nothing, false, false, false, false, [])

  /** The record of a job whose processing failed: in `DoJob`, or after only a part of its children. */
  predicate FailedRecord(r: Record)
  {
    && r.started && !r.resultSent
    && match r.returned
       case Nothing => false
       case Failure => !r.pushError && r.children == []
       case Success(next) => r.pushError && r.children < next
  }

  predicate SuccessRecord(r: Record)
  {
    r.started && r.returned.Success? && !r.pushError && !r.failureSent && !r.unreported
  }

  /** What the record of a worker's job says at each program counter. */
  predicate WorkerRecord(r: Record, w: Worker, reported: bool)
  {
    match w
    case InDoJob(_) => r == Untouched.(started := true)
    case CountingCompleted(_) => SuccessRecord(r) && !r.resultSent && r.children == []
    case PushingChildren(_, k) =>
      SuccessRecord(r) && !r.resultSent && k <= |r.returned.next| && r.children == r.returned.next[..k]
    case SendingResult(_) => SuccessRecord(r) && !r.resultSent && r.children == r.returned.next && reported
    case CountingFailed(_) => FailedRecord(r) && !r.failureSent && !r.unreported
    case SendingFailure(_) => FailedRecord(r) && !r.failureSent && !r.unreported
    case _ => true
  }

  /** The record of a finished job. A failure is reported, if failures are, unless its send timed out. */
  predicate FinishedRecord(r: Record, reported: bool, withFailed: bool)
  {
    || (FailedRecord(r) && (if withFailed then r.failureSent != r.unreported else !r.failureSent && !r.unreported))
    || (SuccessRecord(r) && r.children == r.returned.next && r.resultSent == reported)
  }

  /** Nothing is recorded of a job that no worker has taken. */
  ghost predicate IdleUntouched(s: State)
  {
    forall t: Ticket :: Held(s.workers, WorkerLoad, t) == 0 && t !in s.finished ==> RecordOf(s, t) == Untouched
  }

  ghost predicate WorkRecorded(s: State)
  {
    forall i | 0 <= i < |s.workers| && WorkerLoad(s.workers[i]) != multiset{} ::
      WorkerRecord(RecordOf(s, s.workers[i].ticket), s.workers[i], Reported(s, s.workers[i].ticket))
  }

  ghost predicate EndRecorded(s: State)
  {
    forall t | t in s.finished :: FinishedRecord(RecordOf(s, t), Reported(s, t), s.withFailed)
  }

  /** The channels and the log carry nothing twice. */
  ghost predicate NothingTwice(s: State)
  {
    && (forall t | t in s.log.successes :: t !in s.log.errors)
    && NoRepeats(s.log.started) && NoRepeats(s.log.results) && NoRepeats(s.log.failures)
    && (!s.withFailed ==> s.log.failures == []
                          && forall i | 0 <= i < |s.workers| :: !s.workers[i].SendingFailure?)
  }

  ghost predicate Recorded(s: State)
  {
    IdleUntouched(s) && WorkRecorded(s) && EndRecorded(s) && NothingTwice(s)
  }

  /** The job's own record after a step of its worker. */
  function NextRecord(r: Record, w: Worker, a: JobStep): Record
  {
    match a
    case JobFails => r.(returned := Failure)
    case JobSucceeds(next) => r.(returned := Success(next))
    case PushChildFails => r.(pushError := true)
    case PushChild =>
      if r.returned.Success? && w.PushingChildren? && w.pushed < |r.returned.next|
      then r.(children := r.children + [r.returned.next[w.pushed]])
      else r
    case SendResult => r.(resultSent := true)
    case SendFailure => r.(failureSent := true)
    case FailureTimesOut => r.(unreported := true)
    case _ => r
  }

  lemma PushedRecord(s: State, job: Job, origin: Origin, t: Ticket)
    ensures var r := RecordOf(s, t);
            RecordOf(Push(s, job, origin), t)
            == r.(children := r.children + if origin == ChildOf(t) then [job] else [])
  {
    ChildrenGrow(s.pushed, PushRecord(job, origin), t);
  }

  lemma MoveRecord(s: State, i: nat, a: JobStep, t: Ticket)
    requires JobEnabled(s, i, a)
    requires a.JobFails? && t == s.workers[i].ticket ==> t !in s.log.successes
    ensures RecordOf(Move(s, i, a), t)
            == if t == s.workers[i].ticket && !a.PushChild?
               then NextRecord(RecordOf(s, t), s.workers[i], a) else RecordOf(s, t)
  {
  }

  lemma JobStepRecord(s: State, i: nat, a: JobStep, t: Ticket)
    requires JobEnabled(s, i, a)
    requires a.JobFails? && t == s.workers[i].ticket ==> t !in s.log.successes
    ensures RecordOf(DoJobStep(s, i, a), t)
            == if t == s.workers[i].ticket then NextRecord(RecordOf(s, t), s.workers[i], a) else RecordOf(s, t)
  {
    MoveRecord(s, i, a, t);
    if a.PushChild? {
      PushedRecord(Move(s, i, a), NextChild(s, s.workers[i]), ChildOf(s.workers[i].ticket), t);
    }
  }

  /** The worker's step fits its record: either it still holds the job, or the job is finished. */
  lemma NextRecordFits(s: State, i: nat, a: JobStep, r: Record)
    requires JobEnabled(s, i, a) && (s.workers[i].SendingFailure? ==> s.withFailed)
    requires var w := s.workers[i];
             && WorkerRecord(r, w, Reported(s, w.ticket))
             && (w.PushingChildren? ==> w.ticket in s.log.successes
                                        && r.returned == Success(s.log.successes[w.ticket]))
    ensures var w := s.workers[i];
            var w' := JobGoesTo(s, w, a);
            var r' := NextRecord(r, w, a);
            if w' == Selecting then FinishedRecord(r', Reported(s, w.ticket), s.withFailed)
            else WorkerRecord(r', w', Reported(s, w.ticket)) && w'.ticket == w.ticket
  {
  }

  /** Nobody else has a worker's job. */
  lemma WorkersJobIsItsOwn(s: State, i: nat)
    requires Conserved(s) && i < |s.workers| && WorkerLoad(s.workers[i]) != multiset{}
    ensures var t := s.workers[i].ticket;
            && t < |s.pushed| && t !in s.finished && t !in s.waiting && t !in s.spawned
            && Held(s.workers, WorkerLoad, t) == 1
            && forall j | 0 <= j < |s.workers| && j != i :: t !in WorkerLoad(s.workers[j])
  {
    var t := s.workers[i].ticket;
    assert Copies(s, t) == One(t < |s.pushed|);
    HeldContains(s.workers, WorkerLoad, i, t);
    forall j | 0 <= j < |s.workers| && j != i ensures t !in WorkerLoad(s.workers[j]) {
      if j < i { HeldByTwo(s.workers, WorkerLoad, j, i, t); } else { HeldByTwo(s.workers, WorkerLoad, i, j, t); }
    }
  }

  lemma JobStepKeepsIdle(s: State, i: nat, a: JobStep)
    requires Conserved(s) && IdleUntouched(s) && WorkRecorded(s) && JobEnabled(s, i, a)
    ensures IdleUntouched(DoJobStep(s, i, a))
  {
    var s', u := DoJobStep(s, i, a), s.workers[i].ticket;
    MoveLoads(s, i, a);
    forall t: Ticket | Held(s'.workers, WorkerLoad, t) == 0 && t !in s'.finished
      ensures RecordOf(s', t) == Untouched
    {
      JobStepRecord(s, i, a, t);
      HeldUpdate(s.workers, WorkerLoad, i, JobGoesTo(s, s.workers[i], a), t);
      HeldContains(s'.workers, WorkerLoad, i, t);
    }
  }

  ghost predicate WorkRecordedAt(s: State, j: nat)
    requires j < |s.workers|
  {
    WorkerLoad(s.workers[j]) != multiset{} ==>
      WorkerRecord(RecordOf(s, s.workers[j].ticket), s.workers[j], Reported(s, s.workers[j].ticket))
  }

  lemma JobStepKeepsOwnWork(s: State, i: nat, a: JobStep)
    requires Conserved(s) && WorkRecorded(s) && JobEnabled(s, i, a)
    requires s.workers[i].SendingFailure? ==> s.withFailed
    ensures WorkRecordedAt(DoJobStep(s, i, a), i)
  {
    WorkersJobIsItsOwn(s, i);
    NextRecordFits(s, i, a, RecordOf(s, s.workers[i].ticket));
    JobStepRecord(s, i, a, s.workers[i].ticket);
  }

  lemma JobStepKeepsOtherWork(s: State, i: nat, a: JobStep, j: nat)
    requires Conserved(s) && WorkRecorded(s) && JobEnabled(s, i, a) && j < |s.workers| && j != i
    ensures WorkRecordedAt(DoJobStep(s, i, a), j)
  {
    if WorkerLoad(s.workers[j]) != multiset{} {
      WorkersJobIsItsOwn(s, i);
      WorkersJobIsItsOwn(s, j);
      JobStepRecord(s, i, a, s.workers[j].ticket);
    }
  }

  lemma AllWorkRecorded(s: State)
    requires forall j: nat | j < |s.workers| :: WorkRecordedAt(s, j)
    ensures WorkRecorded(s)
  {
    forall j | 0 <= j < |s.workers| && WorkerLoad(s.workers[j]) != multiset{}
      ensures WorkerRecord(RecordOf(s, s.workers[j].ticket), s.workers[j], Reported(s, s.workers[j].ticket))
    {
      assert WorkRecordedAt(s, j);
    }
  }

  lemma JobStepKeepsWork(s: State, i: nat, a: JobStep)
    requires Conserved(s) && WorkRecorded(s) && JobEnabled(s, i, a)
    requires s.workers[i].SendingFailure? ==> s.withFailed
    ensures WorkRecorded(DoJobStep(s, i, a))
  {
    assert |DoJobStep(s, i, a).workers| == |s.workers|;
    forall j: nat | j < |s.workers| ensures WorkRecordedAt(DoJobStep(s, i, a), j) {
      if j == i { JobStepKeepsOwnWork(s, i, a); } else { JobStepKeepsOtherWork(s, i, a, j); }
    }
    AllWorkRecorded(DoJobStep(s, i, a));
  }

  lemma JobStepKeepsEnd(s: State, i: nat, a: JobStep)
    requires Conserved(s) && WorkRecorded(s) && EndRecorded(s) && JobEnabled(s, i, a)
    requires s.workers[i].SendingFailure? ==> s.withFailed
    ensures EndRecorded(DoJobStep(s, i, a))
  {
    var s', u := DoJobStep(s, i, a), s.workers[i].ticket;
    WorkersJobIsItsOwn(s, i);
    NextRecordFits(s, i, a, RecordOf(s, u));
    JobStepRecord(s, i, a, u);
    forall t | t in s'.finished ensures FinishedRecord(RecordOf(s', t), Reported(s', t), s'.withFailed) {
      if t != u {
        assert Copies(s, t) == One(t < |s.pushed|);
        JobStepRecord(s, i, a, t);
      }
    }
  }

  lemma JobStepKeepsRecords(s: State, i: nat, a: JobStep)
    requires Conserved(s) && Recorded(s) && JobEnabled(s, i, a)
    ensures Recorded(DoJobStep(s, i, a))
  {
    JobStepKeepsIdle(s, i, a);
    JobStepKeepsWork(s, i, a);
    JobStepKeepsEnd(s, i, a);
  }

  /** The job a worker takes is nobody's and has no record yet. */
  lemma DeliveredIsNew(s: State, i: nat)
    requires Conserved(s) && IdleUntouched(s) && WorkerEnabled(s, i, Deliver)
    ensures var u := s.pumps[i].ticket;
            && RecordOf(s, u) == Untouched && u < |s.pushed| && u !in s.finished
            && Held(s.workers, WorkerLoad, u) == 0
            && forall j | 0 <= j < |s.workers| :: u !in WorkerLoad(s.workers[j])
  {
    var u := s.pumps[i].ticket;
    assert Copies(s, u) == One(u < |s.pushed|);
    HeldContains(s.pumps, PumpLoad, i, u);
    forall j | 0 <= j < |s.workers| ensures u !in WorkerLoad(s.workers[j]) {
      HeldContains(s.workers, WorkerLoad, j, u);
    }
  }

  lemma DeliverRecord(s: State, i: nat, t: Ticket)
    requires WorkerEnabled(s, i, Deliver)
    ensures RecordOf(DoWorker(s, i, Deliver), t)
            == if t == s.pumps[i].ticket then RecordOf(s, t).(started := true) else RecordOf(s, t)
  {
  }

  lemma DeliverKeepsIdle(s: State, i: nat)
    requires Conserved(s) && IdleUntouched(s) && WorkerEnabled(s, i, Deliver)
    ensures IdleUntouched(DoWorker(s, i, Deliver))
  {
    var s' := DoWorker(s, i, Deliver);
    forall t: Ticket | Held(s'.workers, WorkerLoad, t) == 0 && t !in s'.finished
      ensures RecordOf(s', t) == Untouched
    {
      HeldUpdate(s.workers, WorkerLoad, i, InDoJob(s.pumps[i].ticket), t);
      HeldContains(s'.workers, WorkerLoad, i, t);
      DeliverRecord(s, i, t);
    }
  }

  lemma DeliverKeepsRecords(s: State, i: nat)
    requires Conserved(s) && Recorded(s) && WorkerEnabled(s, i, Deliver)
    ensures Recorded(DoWorker(s, i, Deliver))
  {
    var s', u := DoWorker(s, i, Deliver), s.pumps[i].ticket;
    DeliveredIsNew(s, i);
    DeliverKeepsIdle(s, i);
    forall j | 0 <= j < |s'.workers| && WorkerLoad(s'.workers[j]) != multiset{}
      ensures WorkerRecord(RecordOf(s', s'.workers[j].ticket), s'.workers[j], Reported(s', s'.workers[j].ticket))
    {
      DeliverRecord(s, i, s'.workers[j].ticket);
    }
    forall t | t in s'.finished ensures FinishedRecord(RecordOf(s', t), Reported(s', t), s'.withFailed) {
      DeliverRecord(s, i, t);
    }
  }

  /** The step concerns no worker's job. */
  ghost predicate SameWork(s: State, s': State)
  {
    && s'.log == s.log && s'.finished == s.finished && s'.withFailed == s.withFailed
    && s'.completed == s.completed && s'.failed == s.failed
    && s.pushed <= s'.pushed && |s'.workers| == |s.workers|
    && (forall t: Ticket :: Children(s'.pushed, t) == Children(s.pushed, t))
    && (forall j | 0 <= j < |s.workers| ::
          s'.workers[j] == s.workers[j]
          || WorkerLoad(s'.workers[j]) == WorkerLoad(s.workers[j]) == multiset{})
  }

  lemma SameWorkKeepsRecords(s: State, s': State)
    requires Conserved(s) && Recorded(s) && SameWork(s, s')
    ensures Recorded(s')
  {
    forall t: Ticket ensures Held(s'.workers, WorkerLoad, t) == Held(s.workers, WorkerLoad, t) {
      HeldPointwise(s.workers, s'.workers, WorkerLoad, t);
    }
    forall t: Ticket ensures RecordOf(s', t) == RecordOf(s, t) {
      assert Children(s'.pushed, t) == Children(s.pushed, t);
    }
    forall j | 0 <= j < |s'.workers| && WorkerLoad(s'.workers[j]) != multiset{}
      ensures WorkerRecord(RecordOf(s', s'.workers[j].ticket), s'.workers[j], Reported(s', s'.workers[j].ticket))
    {
      WorkersJobIsItsOwn(s, j);
    }
    forall t | t in s'.finished ensures FinishedRecord(RecordOf(s', t), Reported(s', t), s'.withFailed) {
      assert Copies(s, t) == One(t < |s.pushed|);
    }
  }

  lemma PusherStepSameWork(s: State, a: PusherStep)
    requires PusherEnabled(s, a)
    ensures SameWork(s, DoPusher(s, a))
  {
    forall t: Ticket ensures Children(DoPusher(s, a).pushed, t) == Children(s.pushed, t) {
      if a.PushSeed? { ChildrenGrow(s.pushed, PushRecord(a.job, Seed), t); }
    }
  }

  lemma WorkerStepSameWork(s: State, i: nat, a: WorkerStep)
    requires Shape(s) && WorkerEnabled(s, i, a) && !a.Deliver?
    ensures SameWork(s, DoWorker(s, i, a))
  {
    assert WorkerShape(s.main, s.ctx, s.workers[i], s.pumps[i]);
  }

  lemma MainStepSameWork(s: State, a: MainStep)
    requires Shape(s) && MainEnabled(s, a)
    ensures SameWork(s, DoMain(s, a))
  {
    forall j | 0 <= j < |s.workers| ensures WorkerShape(s.main, s.ctx, s.workers[j], s.pumps[j]) {}
  }

  lemma OtherStepsSameWork(s: State, a: Action)
    requires Shape(s) && Enabled(s, a)
    requires !a.ByJob? && !(a.ByWorker? && a.worker.Deliver?)
    ensures SameWork(s, Do(s, a))
  {
    match a {
      case ByPusher(p) => PusherStepSameWork(s, p);
      case ByPump(_, _) =>
      case ByWorker(i, w) => WorkerStepSameWork(s, i, w);
      case ByMain(m) => MainStepSameWork(s, m);
    }
  }

  lemma StepKeepsRecords(s: State, a: Action)
    requires Sound(s) && Recorded(s) && Enabled(s, a)
    ensures Recorded(Do(s, a))
  {
    match a {
      case ByJob(i, j) => JobStepKeepsRecords(s, i, j);
      case ByWorker(i, Deliver) => DeliverKeepsRecords(s, i);
      case _ =>
        OtherStepsSameWork(s, a);
        SameWorkKeepsRecords(s, Do(s, a));
    }
  }

  function OwesCompleted(w: Worker): nat { One(w.CountingCompleted?) }

  function OwesFailed(w: Worker): nat { One(w.CountingFailed?) }

  /** The two counters lag behind the outcomes by the workers that have not counted yet. */
  ghost predicate Accounted(s: State)
  {
    && s.completed + Total(s.workers, OwesCompleted) == |s.log.successes|
    && s.failed + Total(s.workers, OwesFailed) == |s.log.errors| + |s.log.pushErrors|
  }

  /** What a worker's step adds to the counters and to the log goes together with what it owes. */
  lemma JobStepKeepsAccounts(s: State, i: nat, a: JobStep)
    requires WorkRecorded(s) && Accounted(s) && JobEnabled(s, i, a)
    ensures Accounted(DoJobStep(s, i, a))
  {
    var w, w' := s.workers[i], JobGoesTo(s, s.workers[i], a);
    TotalUpdate(s.workers, OwesCompleted, i, w');
    TotalUpdate(s.workers, OwesFailed, i, w');
    assert WorkerRecord(RecordOf(s, w.ticket), w, Reported(s, w.ticket));
    JobStepBalance(s, i, a);
  }

  lemma JobStepBalance(s: State, i: nat, a: JobStep)
    requires JobEnabled(s, i, a)
    requires WorkerRecord(RecordOf(s, s.workers[i].ticket), s.workers[i], Reported(s, s.workers[i].ticket))
    ensures var w := s.workers[i];
            var w' := JobGoesTo(s, w, a);
            var log := JobLog(s.log, w.ticket, a);
            && One(a.CountCompleted?) + OwesCompleted(w') - OwesCompleted(w)
               == |log.successes| - |s.log.successes|
            && One(a.CountFailed?) + OwesFailed(w') - OwesFailed(w)
               == |log.errors| - |s.log.errors| + |log.pushErrors| - |s.log.pushErrors|
  {
  }

  lemma DeliverKeepsAccounts(s: State, i: nat)
    requires Accounted(s) && WorkerEnabled(s, i, Deliver)
    ensures Accounted(DoWorker(s, i, Deliver))
  {
    TotalUpdate(s.workers, OwesCompleted, i, InDoJob(s.pumps[i].ticket));
    TotalUpdate(s.workers, OwesFailed, i, InDoJob(s.pumps[i].ticket));
  }

  lemma SameWorkKeepsAccounts(s: State, s': State)
    requires Accounted(s) && SameWork(s, s')
    ensures Accounted(s')
  {
    TotalPointwise(s.workers, s'.workers, OwesCompleted);
    TotalPointwise(s.workers, s'.workers, OwesFailed);
  }

  lemma StepKeepsAccounts(s: State, a: Action)
    requires Sound(s) && Recorded(s) && Accounted(s) && Enabled(s, a)
    ensures Accounted(Do(s, a))
  {
    match a {
      case ByJob(i, j) => JobStepKeepsAccounts(s, i, j);
      case ByWorker(i, Deliver) => DeliverKeepsAccounts(s, i);
      case _ =>
        OtherStepsSameWork(s, a);
        SameWorkKeepsAccounts(s, Do(s, a));
    }
  }

  ghost predicate Consistent(s: State)
  {
    Sound(s) && Recorded(s) && Accounted(s)
  }

  lemma InitialIsConsistent(n: nat, withFailed: bool)
    ensures Consistent(Initial(n, withFailed))
  {
    InitialIsSound(n, withFailed);
    TotalNothing(Initial(n, withFailed).workers, OwesCompleted);
    TotalNothing(Initial(n, withFailed).workers, OwesFailed);
  }

  lemma {:induction false} RunKeepsConsistent(s: State, acts: seq<Action>)
    requires Consistent(s) && Possible(s, acts)
    ensures Consistent(After(s, acts))
    decreases |acts|
  {
    if acts != [] {
      StepKeepsSound(s, acts[0]);
      StepKeepsRecords(s, acts[0]);
      StepKeepsAccounts(s, acts[0]);
      RunKeepsConsistent(Do(s, acts[0]), acts[1..]);
    }
  }

  lemma ReachableIsConsistent(n: nat, withFailed: bool, acts: seq<Action>)
    requires Possible(Initial(n, withFailed), acts)
    ensures Consistent(After(Initial(n, withFailed), acts))
  {
    InitialIsConsistent(n, withFailed);
    RunKeepsConsistent(Initial(n, withFailed), acts);
  }

  /** What the record of a ticket says depends on where the ticket is. */
  lemma StartedIffHeldOrFinished(s: State, t: Ticket)
    requires Consistent(s)
    ensures t in s.log.started <==> t in s.finished || Held(s.workers, WorkerLoad, t) > 0
    ensures t in s.log.started ==> t < |s.pushed|
    ensures !(t in s.log.results && t in s.log.failures)
  {
    assert Copies(s, t) == One(t < |s.pushed|);
    if t in s.finished {
      assert FinishedRecord(RecordOf(s, t), Reported(s, t), s.withFailed);
    } else if Held(s.workers, WorkerLoad, t) > 0 {
      var i := Holder(s.workers, WorkerLoad, t);
      assert WorkerRecord(RecordOf(s, t), s.workers[i], Reported(s, t));
    } else {
      assert RecordOf(s, t) == Untouched;
    }
  }

  lemma HeldIffAtAWorker(s: State, t: Ticket)
    ensures Held(s.workers, WorkerLoad, t) > 0 <==> exists i :: IsAt(s, t, AtWorker(i))
  {
    if Held(s.workers, WorkerLoad, t) > 0 {
      var i := Holder(s.workers, WorkerLoad, t);
      assert IsAt(s, t, AtWorker(i));
    }
    forall i | IsAt(s, t, AtWorker(i)) ensures Held(s.workers, WorkerLoad, t) > 0 {
      HeldContains(s.workers, WorkerLoad, i, t);
    }
  }

  /** In every run no job is processed twice, only pushed jobs are processed, exactly the jobs that
      left the provider are, and no job yields both a result and a failure, or either of them twice. */
  lemma EachJobProcessedAndReportedOnce(n: nat, withFailed: bool, acts: seq<Action>, t: Ticket)
    requires Possible(Initial(n, withFailed), acts)
    ensures var s := After(Initial(n, withFailed), acts);
            && NoRepeats(s.log.started) && NoRepeats(s.log.results) && NoRepeats(s.log.failures)
            && (t in s.log.started <==> IsAt(s, t, AtEnd) || exists i :: IsAt(s, t, AtWorker(i)))
            && (t in s.log.started ==> t < |s.pushed|)
            && !(t in s.log.results && t in s.log.failures)
  {
    ReachableIsConsistent(n, withFailed, acts);
    StartedIffHeldOrFinished(After(Initial(n, withFailed), acts), t);
    HeldIffAtAWorker(After(Initial(n, withFailed), acts), t);
  }

  /** What has been recorded of a ticket that no worker has. */
  ghost predicate Settled(s: State, t: Ticket)
  {
    && (t in s.log.results
        <==> t < |s.pushed| && s.pushed[t].job.useInResults && t in s.log.successes && t !in s.log.pushErrors)
    && (t in s.log.failures
        <==> s.withFailed && (t in s.log.errors || t in s.log.pushErrors) && t !in s.log.unreported)
    && (t in s.log.started <==> t in s.log.successes || t in s.log.errors)
    && !(t in s.log.successes && t in s.log.errors)
  }

  lemma SettledUnlessHeld(s: State, t: Ticket)
    requires Consistent(s) && Held(s.workers, WorkerLoad, t) == 0
    ensures Settled(s, t)
  {
    if t in s.finished {
      assert FinishedRecord(RecordOf(s, t), Reported(s, t), s.withFailed);
    } else {
      assert RecordOf(s, t) == Untouched;
    }
  }

  /** In every reachable state the counters lag behind the successful `DoJob`s, and behind the failures, a
      `DoJob` error and a child push that failed counting one each, by just the workers that stand at their
      update. And of every job that no worker has: its result has been sent exactly if it asks for that,
      `DoJob` succeeded and so did all child pushes; and its failure, if failures are wanted, exactly if its
      processing or a child push failed and the send did not time out. */
  lemma AccountsBalance(n: nat, withFailed: bool, acts: seq<Action>, t: Ticket)
    requires Possible(Initial(n, withFailed), acts)
    ensures var s := After(Initial(n, withFailed), acts);
            && s.withFailed == withFailed
            && s.completed + Total(s.workers, OwesCompleted) == |s.log.successes|
            && s.failed + Total(s.workers, OwesFailed) == |s.log.errors| + |s.log.pushErrors|
            && ((forall i :: !IsAt(s, t, AtWorker(i))) ==> Settled(s, t))
  {
    ReachableIsConsistent(n, withFailed, acts);
    ConfigurationStays(Initial(n, withFailed), acts);
    var s := After(Initial(n, withFailed), acts);
    HeldIffAtAWorker(s, t);
    if forall i :: !IsAt(s, t, AtWorker(i)) { SettledUnlessHeld(s, t); }
  }

  /** No worker is inside a job. */
  ghost predicate Quiet(s: State)
  {
    forall i | 0 <= i < |s.workers| :: WorkerLoad(s.workers[i]) == multiset{}
  }

  /** Whenever no worker is inside a job, the counters are exact and every ticket is settled. */
  lemma QuietAccountsBalance(n: nat, withFailed: bool, acts: seq<Action>, t: Ticket)
    requires Possible(Initial(n, withFailed), acts)
    requires Quiet(After(Initial(n, withFailed), acts))
    ensures var s := After(Initial(n, withFailed), acts);
            && s.completed == |s.log.successes| && s.failed == |s.log.errors| + |s.log.pushErrors|
            && Settled(s, t)
  {
    AccountsBalance(n, withFailed, acts, t);
    var s := After(Initial(n, withFailed), acts);
    TotalNothing(s.workers, OwesCompleted);
    TotalNothing(s.workers, OwesFailed);
  }

  lemma {:induction false} ConfigurationStays(s: State, acts: seq<Action>)
    requires Possible(s, acts)
    ensures After(s, acts).withFailed == s.withFailed
    decreases |acts|
  {
    if acts != [] { ConfigurationStays(Do(s, acts[0]), acts[1..]); }
  }

  /** The children pushed for a job are always a prefix, in order, of those `DoJob` returned: all of
      them once the job has finished without a push error, and a proper prefix after a push error. */
  lemma ChildrenArePushedInOrder(n: nat, withFailed: bool, acts: seq<Action>, t: Ticket)
    requires Possible(Initial(n, withFailed), acts)
    ensures var s := After(Initial(n, withFailed), acts);
            var pushed := Children(s.pushed, t);
            && (t !in s.log.successes ==> pushed == [])
            && (t in s.log.successes ==> pushed <= s.log.successes[t])
            && (t in s.log.pushErrors ==> t in s.log.successes && pushed < s.log.successes[t])
            && (t in s.log.successes && t in s.finished && t !in s.log.pushErrors
                ==> pushed == s.log.successes[t])
            && (t in s.log.results ==> t in s.log.successes && pushed == s.log.successes[t])
  {
    ReachableIsConsistent(n, withFailed, acts);
    var s := After(Initial(n, withFailed), acts);
    assert Copies(s, t) == One(t < |s.pushed|);
    if t in s.finished {
      assert FinishedRecord(RecordOf(s, t), Reported(s, t), s.withFailed);
    } else if Held(s.workers, WorkerLoad, t) > 0 {
      var i := Holder(s.workers, WorkerLoad, t);
      assert WorkerRecord(RecordOf(s, t), s.workers[i], Reported(s, t));
    } else {
      assert RecordOf(s, t) == Untouched;
    }
  }
}
