/**
 The crawl engine as a system of interleaved steps: the memory provider's pushers and pumps, the
 workers, the stats watcher and the main goroutine that waits for them and closes the channels.

 Every goroutine has a program counter. One action is one indivisible step of one goroutine: a
 `select`, a channel rendezvous, a locked counter update. Any other goroutine may act in between.
 */
module Engine {
  import opened Bags

  /** The number of one `Push`. The same job value may be pushed many times. */
  type Ticket = nat

  datatype Job = Job(id: int, priority: int, useInResults: bool)

  datatype Channel = P0 | P1 | P2

  /** Unknown priorities are treated as high. */
  function Route(priority: int): Channel
  {
    match priority
    case 0 => P0
    case 1 => P1
    case 2 => P2
    case _ => P0
  }

  function Rank(c: Channel): nat
  {
    match c case P0 => 0 case P1 => 1 case P2 => 2
  }

  datatype Origin = Seed | ChildOf(parent: Ticket)

  datatype PushRecord = PushRecord(job: Job, origin: Origin)

  /** The provider goroutine started by `Jobs`, by the select it stands at. `errPending` says that
      the one place of its buffered error channel is taken. */
  datatype Pump =
    | Absent
    | AtTop
    | AtMiddle
    | AtBottom
    | Offering(ticket: Ticket)
    | OfferingZero
    | Stopped(errPending: bool)

  datatype Worker =
    | Unstarted
    | Launched
    | Selecting
    | InDoJob(ticket: Ticket)
    | CountingCompleted(ticket: Ticket)
    | PushingChildren(ticket: Ticket, pushed: nat)
    | SendingResult(ticket: Ticket)
    | CountingFailed(ticket: Ticket)
    | SendingFailure(ticket: Ticket)
    | Restarting
    | Exited

  datatype Context = Alive | Canceled | DeadlineExceeded

  datatype Main = Initialising | Waiting | ClosingResults | ClosingFailed | Returned

  datatype Watcher = NotWatching | Watching | WatcherGone

  /** What has been observed: the jobs started, what `DoJob` returned for them, the failed
      `finishJob` calls, the values sent on the two output channels, and the failures whose send
      timed out. */
  datatype History = History(
    started: seq<Ticket>,
    successes: map<Ticket, seq<Job>>,
    errors: set<Ticket>,
    pushErrors: set<Ticket>,
    results: seq<Ticket>,
    failures: seq<Ticket>,
    unreported: set<Ticket>)

  datatype State = State(
    withFailed: bool,
    ctx: Context,
    crashed: bool,
    main: Main,
    watcher: Watcher,
    pushed: seq<PushRecord>,
    spawned: set<Ticket>,
    waiting: set<Ticket>,
    pumps: seq<Pump>,
    workers: seq<Worker>,
    finished: set<Ticket>,
    dropped: set<Ticket>,
    completed: nat,
    failed: nat,
    resultsCloses: nat,
    failedCloses: nat,
    log: History)

  /** Goroutines outside the workers push; a pusher's goroutine parks at its select or gives up. */
  datatype PusherStep = PushSeed(job: Job) | Park(t: Ticket) | GiveUp(t: Ticket)

  /** A pump at one of its three selects: it receives a job, sees the context done, or finds no case
      ready and takes the default. */
  datatype PumpStep = Receive(t: Ticket) | SeeDone | Default

  /** A worker and its pump: starting, the rendezvous, and the error channel. */
  datatype WorkerStep =
    | StartWorker
    | Deliver
    | DeliverZero
    | Leave
    | SeeError
    | Restart

  /** A worker inside its job. */
  datatype JobStep =
    | JobFails
    | JobSucceeds(next: seq<Job>)
    | CountCompleted
    | PushChild
    | PushChildFails
    | PushesDone
    | SendResult
    | CountFailed
    | SendFailure
    | FailureTimesOut

  /** `Start` itself, the stats watcher, and cancellation from outside or by a stop policy. */
  datatype MainStep =
    | InitSucceeds
    | InitFails
    | CancelContext(cause: Context)
    | WatcherSeesDone
    | WatcherCancels
    | WaitReturns
    | CloseResults
    | CloseFailed

  datatype Action =
    | ByPusher(pusher: PusherStep)
    | ByPump(i: nat, pump: PumpStep)
    | ByWorker(i: nat, worker: WorkerStep)
    | ByJob(i: nat, job: JobStep)
    | ByMain(main: MainStep)

  /** `Start` is about to run with `n` workers; nobody has pushed anything. */
  function Initial(n: nat, withFailed: bool): State
  {
    State(withFailed, Alive, false, Initialising, NotWatching, [], {}, {},
          seq(n, _ => Absent), seq(n, _ => Unstarted), {}, {}, 0, 0, 0, 0,
          History([], map[], {}, {}, [], [], {}))
  }

  predicate Done(s: State) { s.ctx != Alive }

  function ChannelOf(s: State, t: Ticket): Channel
    requires t < |s.pushed|
  {
    Route(s.pushed[t].job.priority)
  }

  /** The channels a pump's select receives from. */
  function Polls(p: Pump): set<Channel>
  {
    match p
    case AtTop => {P0}
    case AtMiddle => {P0, P1}
    case AtBottom => {P0, P1, P2}
    case _ => {}
  }

  /** A pusher is parked at its select, ready to hand `t` over on one of the channels. */
  predicate Ready(s: State, t: Ticket, channels: set<Channel>)
  {
    t in s.waiting && t < |s.pushed| && ChannelOf(s, t) in channels
  }

  /** The job of ticket `t` asks for its result to be reported. */
  predicate Reported(s: State, t: Ticket)
  {
    t < |s.pushed| && s.pushed[t].job.useInResults
  }

  predicate PusherEnabled(s: State, a: PusherStep)
  {
    match a
    case PushSeed(_) => true
    case Park(t) => t in s.spawned
    case GiveUp(t) => t in s.waiting && Done(s)
  }

  /** A `default` case is taken only when no other case of its select is ready; the last select has
      no default. */
  predicate PumpEnabled(s: State, i: nat, a: PumpStep)
  {
    && i < |s.pumps| && Polls(s.pumps[i]) != {}
    && match a
       case Receive(t) => Ready(s, t, Polls(s.pumps[i]))
       case SeeDone => Done(s)
       case Default =>
         && s.pumps[i] != AtBottom && !Done(s)
         && forall t | t in s.waiting :: !Ready(s, t, Polls(s.pumps[i]))
  }

  predicate WorkerEnabled(s: State, i: nat, a: WorkerStep)
  {
    && i < |s.pumps| && i < |s.workers|
    && match a
       case StartWorker => s.workers[i] == Launched
       case Deliver => s.workers[i] == Selecting && s.pumps[i].Offering?
       case DeliverZero => s.workers[i] == Selecting && s.pumps[i] == OfferingZero
       case Leave => s.workers[i] == Selecting && Done(s)
       case SeeError => s.workers[i] == Selecting && s.pumps[i] == Stopped(true)
       case Restart => s.workers[i] == Restarting
  }

  predicate JobEnabled(s: State, i: nat, a: JobStep)
  {
    && i < |s.workers|
    && match a
       case JobFails => s.workers[i].InDoJob?
       case JobSucceeds(_) => s.workers[i].InDoJob?
       case CountCompleted => s.workers[i].CountingCompleted?
       case PushChild => s.workers[i].PushingChildren? && ChildrenLeft(s, s.workers[i])
       case PushChildFails => s.workers[i].PushingChildren? && ChildrenLeft(s, s.workers[i])
       case PushesDone => s.workers[i].PushingChildren? && !ChildrenLeft(s, s.workers[i])
       case SendResult => s.workers[i].SendingResult?
       case CountFailed => s.workers[i].CountingFailed?
       case SendFailure => s.workers[i].SendingFailure?
       case FailureTimesOut => s.workers[i].SendingFailure?
  }

  /** `pushJobs` has a further child to push. */
  predicate ChildrenLeft(s: State, w: Worker)
    requires w.PushingChildren?
  {
    w.ticket in s.log.successes && w.pushed < |s.log.successes[w.ticket]|
  }

  function NextChild(s: State, w: Worker): Job
    requires w.PushingChildren? && ChildrenLeft(s, w)
  {
    s.log.successes[w.ticket][w.pushed]
  }

  predicate MainEnabled(s: State, a: MainStep)
  {
    match a
    case InitSucceeds => s.main == Initialising
    case InitFails => s.main == Initialising
    case CancelContext(cause) => cause != Alive && s.ctx == Alive
    case WatcherSeesDone => s.watcher == Watching && Done(s)
    case WatcherCancels => s.watcher == Watching
    case WaitReturns =>
      && s.main == Waiting && s.watcher == WatcherGone && Done(s)
      && forall i | 0 <= i < |s.workers| :: s.workers[i] == Exited
    case CloseResults => s.main == ClosingResults
    case CloseFailed => s.main == ClosingFailed
  }

  /** What can happen next. Nothing happens after a crash of the process. */
  predicate Enabled(s: State, a: Action)
  {
    && !s.crashed
    && match a
       case ByPusher(p) => PusherEnabled(s, p)
       case ByPump(i, p) => PumpEnabled(s, i, p)
       case ByWorker(i, w) => WorkerEnabled(s, i, w)
       case ByJob(i, j) => JobEnabled(s, i, j)
       case ByMain(m) => MainEnabled(s, m)
  }

  /** `Push` starts a goroutine for the job and returns. */
  function Push(s: State, job: Job, origin: Origin): State
  {
    s.(pushed := s.pushed + [PushRecord(job, origin)], spawned := s.spawned + {|s.pushed|})
  }

  function DoPusher(s: State, a: PusherStep): State
    requires PusherEnabled(s, a)
  {
    match a
    case PushSeed(job) => Push(s, job, Seed)
    case Park(t) => s.(spawned := s.spawned - {t}, waiting := s.waiting + {t})
    case GiveUp(t) => s.(waiting := s.waiting - {t}, dropped := s.dropped + {t})
  }

  function PumpGoesTo(p: Pump, a: PumpStep): Pump
  {
    match a
    case Receive(t) => Offering(t)
    // The middle select offers the job variable, still nil, instead of stopping.
    case SeeDone => if p == AtMiddle then OfferingZero else Stopped(true)
    case Default => if p == AtTop then AtMiddle else AtBottom
  }

  function DoPump(s: State, i: nat, a: PumpStep): State
    requires PumpEnabled(s, i, a)
  {
    s.(pumps := s.pumps[i := PumpGoesTo(s.pumps[i], a)],
       waiting := if a.Receive? then s.waiting - {a.t} else s.waiting)
  }

  function WorkerGoesTo(ctx: Context, p: Pump, a: WorkerStep): Worker
  {
    match a
    case StartWorker => Selecting
    case Deliver => if p.Offering? then InDoJob(p.ticket) else Selecting
    case DeliverZero => Selecting
    case Leave => Exited
    case SeeError => if ctx == Canceled then Exited else Restarting
    case Restart => Selecting
  }

  /** The worker's pump after the step: offered values are taken, and `Jobs` starts a new pump. */
  function PumpLeftAt(p: Pump, a: WorkerStep): Pump
  {
    match a
    case Leave => p
    case SeeError => Stopped(false)
    case _ => AtTop
  }

  function DoWorker(s: State, i: nat, a: WorkerStep): State
    requires WorkerEnabled(s, i, a)
  {
    s.(workers := s.workers[i := WorkerGoesTo(s.ctx, s.pumps[i], a)],
       pumps := s.pumps[i := PumpLeftAt(s.pumps[i], a)],
       // `DoJob` calls a method of the nil job before it has installed its recover handler.
       crashed := s.crashed || a.DeliverZero?,
       log := if a.Deliver? then s.log.(started := s.log.started + [s.pumps[i].ticket]) else s.log)
  }

  function JobGoesTo(s: State, w: Worker, a: JobStep): Worker
    requires WorkerLoad(w) != multiset{}
  {
    var t := w.ticket;
    match a
    case JobFails => CountingFailed(t)
    case JobSucceeds(_) => CountingCompleted(t)
    case CountCompleted => PushingChildren(t, 0)
    case PushChild => PushingChildren(t, if w.PushingChildren? then w.pushed + 1 else 0)
    case PushChildFails => CountingFailed(t)
    case PushesDone => if Reported(s, t) then SendingResult(t) else Selecting
    case SendResult => Selecting
    case CountFailed => if s.withFailed then SendingFailure(t) else Selecting
    case SendFailure => Selecting
    case FailureTimesOut => Selecting
  }

  function JobLog(log: History, t: Ticket, a: JobStep): History
  {
    match a
    case JobFails => log.(errors := log.errors + {t})
    case JobSucceeds(next) => log.(successes := log.successes[t := next])
    case PushChildFails => log.(pushErrors := log.pushErrors + {t})
    case SendResult => log.(results := log.results + [t])
    case SendFailure => log.(failures := log.failures + [t])
    case FailureTimesOut => log.(unreported := log.unreported + {t})
    case _ => log
  }

  /** The worker's own move: its program counter, the counters, the channels. */
  function Move(s: State, i: nat, a: JobStep): State
    requires JobEnabled(s, i, a)
  {
    var t := s.workers[i].ticket;
    var w := JobGoesTo(s, s.workers[i], a);
    s.(workers := s.workers[i := w],
       finished := if w == Selecting then s.finished + {t} else s.finished,
       completed := s.completed + if a.CountCompleted? then 1 else 0,
       failed := s.failed + if a.CountFailed? then 1 else 0,
       log := JobLog(s.log, t, a))
  }

  function DoJobStep(s: State, i: nat, a: JobStep): State
    requires JobEnabled(s, i, a)
  {
    if a.PushChild? then Push(Move(s, i, a), NextChild(s, s.workers[i]), ChildOf(s.workers[i].ticket))
    else Move(s, i, a)
  }

  function DoMain(s: State, a: MainStep): State
    requires MainEnabled(s, a)
  {
    match a
    case InitSucceeds =>
      s.(main := Waiting, watcher := Watching, workers := seq(|s.workers|, _ => Launched))
    case InitFails => s.(main := ClosingResults)
    case CancelContext(cause) => s.(ctx := cause)
    case WatcherSeesDone => s.(watcher := WatcherGone)
    case WatcherCancels => s.(watcher := WatcherGone, ctx := if s.ctx == Alive then Canceled else s.ctx)
    case WaitReturns => s.(main := ClosingResults)
    case CloseResults =>
      s.(main := if s.withFailed then ClosingFailed else Returned, resultsCloses := s.resultsCloses + 1)
    case CloseFailed => s.(main := Returned, failedCloses := s.failedCloses + 1)
  }

  function Do(s: State, a: Action): State
    requires Enabled(s, a)
  {
    match a
    case ByPusher(p) => DoPusher(s, p)
    case ByPump(i, p) => DoPump(s, i, p)
    case ByWorker(i, w) => DoWorker(s, i, w)
    case ByJob(i, j) => DoJobStep(s, i, j)
    case ByMain(m) => DoMain(s, m)
  }

  /** The ticket a pump carries, if any. */
  function PumpLoad(p: Pump): multiset<nat>
  {
    match p
    case Offering(t) => multiset{t}
    case _ => multiset{}
  }

  /** The ticket a worker is busy with, if any. */
  function WorkerLoad(w: Worker): multiset<nat>
  {
    match w
    case InDoJob(t) => multiset{t}
    case CountingCompleted(t) => multiset{t}
    case PushingChildren(t, _) => multiset{t}
    case SendingResult(t) => multiset{t}
    case CountingFailed(t) => multiset{t}
    case SendingFailure(t) => multiset{t}
    case _ => multiset{}
  }

  /** The actions can be taken one after another. */
  predicate Possible(s: State, acts: seq<Action>)
    decreases |acts|
  {
    acts == [] || (Enabled(s, acts[0]) && Possible(Do(s, acts[0]), acts[1..]))
  }

  /** The state at the end of a run. */
  function After(s: State, acts: seq<Action>): State
    requires Possible(s, acts)
    decreases |acts|
  {
    if acts == [] then s else After(Do(s, acts[0]), acts[1..])
  }
}
