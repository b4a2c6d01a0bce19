/** How often a waiting job can be overtaken by jobs of lower priority. */
module EnginePriority {
  import opened Bags
  import opened Engine
  import opened EngineConservation

  predicate Lower(c: Channel, than: Channel) { Rank(c) > Rank(than) }

  /** The level of a priority: 0 high, 1 medium, 2 low; any other number counts as high. */
  function Level(priority: int): nat
  {
    if priority == 1 || priority == 2 then priority else 0
  }

  function LevelOf(s: State, t: Ticket): nat
    requires t < |s.pushed|
  {
    Level(s.pushed[t].job.priority)
  }

  /** The pump stands at a select that may receive a job of lower priority than channel `c`. */
  predicate Exposed(p: Pump, c: Channel)
  {
    exists d | d in Polls(p) :: Lower(d, c)
  }

  function ExposedPumps(s: State, c: Channel, group: set<nat>): set<nat>
  {
    set i | i in group && i < |s.pumps| && Exposed(s.pumps[i], c)
  }

  /** While ticket `h` waits on its channel, a pump of the group receives a job of lower priority. */
  predicate Overtakes(s: State, a: Action, h: Ticket, group: set<nat>)
  {
    && h in s.waiting && h < |s.pushed|
    && a.ByPump? && a.pump.Receive? && a.i in group
    && a.pump.t < |s.pushed| && LevelOf(s, a.pump.t) > LevelOf(s, h)
  }

  /** How often that happens in a run. */
  function Overtakings(s: State, acts: seq<Action>, h: Ticket, group: set<nat>): nat
    requires Possible(s, acts)
    decreases |acts|
  {
    if acts == [] then 0
    else One(Overtakes(s, acts[0], h, group)) + Overtakings(Do(s, acts[0]), acts[1..], h, group)
  }

  lemma SubsetSmaller(a: set<nat>, b: set<nat>)
    requires a <= b
    ensures |a| <= |b|
    decreases b
  {
    if a != {} {
      var x :| x in a;
      SubsetSmaller(a - {x}, b - {x});
    }
  }

  /** No step exposes a pump while `h` waits, and a pump that overtakes `h` is exposed no more. */
  lemma StepHidesPumps(s: State, a: Action, h: Ticket, group: set<nat>)
    requires Enabled(s, a) && h in s.waiting && h < |s.pushed|
    ensures var c := ChannelOf(s, h);
            && ExposedPumps(Do(s, a), c, group) <= ExposedPumps(s, c, group)
            && (Overtakes(s, a, h, group) ==>
                  a.i in ExposedPumps(s, c, group) && a.i !in ExposedPumps(Do(s, a), c, group))
  {
    var c := ChannelOf(s, h);
    forall i | i in ExposedPumps(Do(s, a), c, group) ensures i in ExposedPumps(s, c, group) {
      if a.ByPump? && a.i == i && a.pump == Default { assert !Ready(s, h, Polls(s.pumps[i])); }
    }
  }

  lemma StepBound(s: State, a: Action, h: Ticket, group: set<nat>)
    requires Enabled(s, a) && h in s.waiting && h < |s.pushed|
    ensures var c := ChannelOf(s, h);
            One(Overtakes(s, a, h, group)) + |ExposedPumps(Do(s, a), c, group)| <= |ExposedPumps(s, c, group)|
  {
    var c := ChannelOf(s, h);
    StepHidesPumps(s, a, h, group);
    if Overtakes(s, a, h, group) {
      SubsetSmaller(ExposedPumps(Do(s, a), c, group), ExposedPumps(s, c, group) - {a.i});
    } else {
      SubsetSmaller(ExposedPumps(Do(s, a), c, group), ExposedPumps(s, c, group));
    }
  }

  /** Once received or given up, a ticket waits no more. */
  lemma {:induction false} NeverWaitsAgain(s: State, acts: seq<Action>, h: Ticket, group: set<nat>)
    requires Possible(s, acts) && h < |s.pushed| && h !in s.spawned && h !in s.waiting
    ensures Overtakings(s, acts, h, group) == 0
    decreases |acts|
  {
    if acts != [] { NeverWaitsAgain(Do(s, acts[0]), acts[1..], h, group); }
  }

  /** From the moment `h` waits it is overtaken at most once by each pump that already stood past the
      poll of its channel, and by no other pump. */
  lemma {:induction false} OvertakenOnlyByExposedPumps(s: State, acts: seq<Action>, h: Ticket, group: set<nat>)
    requires Sound(s) && Possible(s, acts) && h in s.waiting && h < |s.pushed|
    ensures Overtakings(s, acts, h, group) <= |ExposedPumps(s, ChannelOf(s, h), group)|
    decreases |acts|
  {
    if acts != [] {
      var s' := Do(s, acts[0]);
      StepKeepsSound(s, acts[0]);
      StepBound(s, acts[0], h, group);
      if h in s'.waiting {
        OvertakenOnlyByExposedPumps(s', acts[1..], h, group);
      } else {
        assert Copies(s, h) == 1;
        NeverWaitsAgain(s', acts[1..], h, group);
      }
    }
  }

  lemma {:induction false} OvertakingsBounded(s: State, acts: seq<Action>, h: Ticket, group: set<nat>)
    requires Sound(s) && Possible(s, acts)
    ensures Overtakings(s, acts, h, group) <= |group|
    decreases |acts|
  {
    if h in s.waiting {
      assert Copies(s, h) == One(h < |s.pushed|);
      OvertakenOnlyByExposedPumps(s, acts, h, group);
      SubsetSmaller(ExposedPumps(s, ChannelOf(s, h), group), group);
    } else if acts != [] {
      StepKeepsSound(s, acts[0]);
      OvertakingsBounded(Do(s, acts[0]), acts[1..], h, group);
    }
  }

  /** In every run of `n` workers, cancelled or not, any ticket is overtaken by jobs of lower priority
      at most once per pump: by any group of pumps at most as often as the group has members. */
  lemma BoundedPriorityInversion(n: nat, withFailed: bool, acts: seq<Action>, h: Ticket, group: set<nat>)
    requires Possible(Initial(n, withFailed), acts)
    ensures Overtakings(Initial(n, withFailed), acts, h, group) <= |group|
  {
    InitialIsSound(n, withFailed);
    OvertakingsBounded(Initial(n, withFailed), acts, h, group);
  }

  function AllPumps(n: nat): (r: set<nat>)
    ensures |r| == n
    ensures forall i: nat :: i in r <==> i < n
  {
    if n == 0 then {} else AllPumps(n - 1) + {n - 1}
  }

  /** Over all `n` pumps at most `n` jobs of lower priority overtake; one pump lets at most one pass. */
  lemma AtMostOneOvertakingPerPump(n: nat, withFailed: bool, acts: seq<Action>, h: Ticket, i: nat)
    requires Possible(Initial(n, withFailed), acts)
    ensures Overtakings(Initial(n, withFailed), acts, h, AllPumps(n)) <= n
    ensures Overtakings(Initial(n, withFailed), acts, h, {i}) <= 1
  {
    BoundedPriorityInversion(n, withFailed, acts, h, AllPumps(n));
    BoundedPriorityInversion(n, withFailed, acts, h, {i});
  }

  /** Only jobs of the same or a lower level wait beside `h`. */
  ghost predicate NothingHigherWaits(s: State, h: Ticket)
  {
    && h in s.waiting && h < |s.pushed|
    && forall t | t in s.waiting && t < |s.pushed| :: LevelOf(s, h) <= LevelOf(s, t)
  }

  /** Steps of pump `i` alone, none of which overtakes `h`, and then the pump has `h`. */
  ghost predicate Serves(s: State, acts: seq<Action>, i: nat, h: Ticket)
  {
    && Possible(s, acts) && (forall a | a in acts :: a.ByPump? && a.i == i)
    && Overtakings(s, acts, h, {i}) == 0
    && i < |After(s, acts).pumps| && After(s, acts).pumps[i] == Offering(h)
  }

  lemma {:induction false} PollingPumpServes(s: State, i: nat, h: Ticket) returns (acts: seq<Action>)
    requires !s.crashed && !Done(s) && i < |s.pumps| && Polls(s.pumps[i]) != {} && NothingHigherWaits(s, h)
    ensures Serves(s, acts, i, h) && |acts| <= 3 - |Polls(s.pumps[i])| + 1
    decreases 3 - |Polls(s.pumps[i])|
  {
    var a := ByPump(i, if ChannelOf(s, h) in Polls(s.pumps[i]) then Receive(h) else Default);
    if a.pump.Receive? {
      acts := [];
    } else {
      acts := PollingPumpServes(Do(s, a), i, h);
    }
    assert ([a] + acts)[1..] == acts;
    acts := [a] + acts;
  }

  /** Overtaking is never forced: in every run, before cancellation, a polling pump can take a waiting job
      by at most three steps of its own, and without overtaking it, as soon as no job of a higher level
      waits. */
  lemma OvertakingIsNeverForced(n: nat, withFailed: bool, acts: seq<Action>, i: nat, h: Ticket)
    requires Possible(Initial(n, withFailed), acts)
    ensures var s := After(Initial(n, withFailed), acts);
            !Done(s) && i < |s.pumps| && Polls(s.pumps[i]) != {} && NothingHigherWaits(s, h)
            ==> exists more :: Serves(s, more, i, h) && |more| <= 3
  {
    ReachableIsSound(n, withFailed, acts);
    var s := After(Initial(n, withFailed), acts);
    if !Done(s) && i < |s.pumps| && Polls(s.pumps[i]) != {} && NothingHigherWaits(s, h) {
      var more := PollingPumpServes(s, i, h);
    }
  }

  // Delivery to the workers, which is what the jobs' owner sees.

  /** While ticket `h` waits on its channel, a pump of the group delivers a job of lower priority. */
  predicate DeliversLower(s: State, a: Action, h: Ticket, group: set<nat>)
  {
    && h in s.waiting && h < |s.pushed|
    && a.ByWorker? && a.worker.Deliver? && a.i in group && a.i < |s.pumps|
    && OffersLower(s, s.pumps[a.i], h)
  }

  predicate OffersLower(s: State, p: Pump, h: Ticket)
    requires h < |s.pushed|
  {
    p.Offering? && p.ticket < |s.pushed| && LevelOf(s, p.ticket) > LevelOf(s, h)
  }

  function LowerDeliveries(s: State, acts: seq<Action>, h: Ticket, group: set<nat>): nat
    requires Possible(s, acts)
    decreases |acts|
  {
    if acts == [] then 0
    else One(DeliversLower(s, acts[0], h, group)) + LowerDeliveries(Do(s, acts[0]), acts[1..], h, group)
  }

  /** The pumps that may still deliver a job of lower priority: they offer one, or may receive one. */
  function LowerPumps(s: State, h: Ticket, group: set<nat>): set<nat>
    requires h < |s.pushed|
  {
    set i | i in group && i < |s.pumps| && (Exposed(s.pumps[i], ChannelOf(s, h)) || OffersLower(s, s.pumps[i], h))
  }

  lemma OfferedWasPushed(s: State, i: nat)
    requires Conserved(s) && i < |s.pumps| && s.pumps[i].Offering?
    ensures s.pumps[i].ticket < |s.pushed|
  {
    var t := s.pumps[i].ticket;
    assert Copies(s, t) == One(t < |s.pushed|);
    HeldContains(s.pumps, PumpLoad, i, t);
  }

  lemma StepSpendsLowerPumps(s: State, a: Action, h: Ticket, group: set<nat>)
    requires Conserved(s) && Enabled(s, a) && h in s.waiting && h < |s.pushed|
    ensures h < |Do(s, a).pushed| && LowerPumps(Do(s, a), h, group) <= LowerPumps(s, h, group)
    ensures DeliversLower(s, a, h, group) ==>
              a.i in LowerPumps(s, h, group) && a.i !in LowerPumps(Do(s, a), h, group)
  {
    forall i | i in LowerPumps(Do(s, a), h, group) ensures i in LowerPumps(s, h, group) {
      if s.pumps[i].Offering? { OfferedWasPushed(s, i); }
      if a.ByPump? && a.i == i {
        assert !(a.pump == Default && Ready(s, h, Polls(s.pumps[i])));
        if a.pump.Receive? { assert ChannelOf(s, a.pump.t) in Polls(s.pumps[i]); }
      }
    }
  }

  lemma DeliveryBound(s: State, a: Action, h: Ticket, group: set<nat>)
    requires Conserved(s) && Enabled(s, a) && h in s.waiting && h < |s.pushed|
    ensures h < |Do(s, a).pushed|
    ensures One(DeliversLower(s, a, h, group)) + |LowerPumps(Do(s, a), h, group)| <= |LowerPumps(s, h, group)|
  {
    StepSpendsLowerPumps(s, a, h, group);
    if DeliversLower(s, a, h, group) {
      SubsetSmaller(LowerPumps(Do(s, a), h, group), LowerPumps(s, h, group) - {a.i});
    } else {
      SubsetSmaller(LowerPumps(Do(s, a), h, group), LowerPumps(s, h, group));
    }
  }

  lemma {:induction false} GoneNeverWaits(s: State, acts: seq<Action>, h: Ticket, group: set<nat>)
    requires Possible(s, acts) && h < |s.pushed| && h !in s.spawned && h !in s.waiting
    ensures LowerDeliveries(s, acts, h, group) == 0
    decreases |acts|
  {
    if acts != [] { GoneNeverWaits(Do(s, acts[0]), acts[1..], h, group); }
  }

  /** While `h` waits, only pumps that offered a job of lower priority when it began to wait, or had gone past
      the poll of its channel, deliver one, and each of them only once. */
  lemma {:induction false} DeliveredOnlyByLowerPumps(s: State, acts: seq<Action>, h: Ticket, group: set<nat>)
    requires Sound(s) && Possible(s, acts) && h in s.waiting && h < |s.pushed|
    ensures LowerDeliveries(s, acts, h, group) <= |LowerPumps(s, h, group)|
    decreases |acts|
  {
    if acts != [] {
      var s' := Do(s, acts[0]);
      StepKeepsSound(s, acts[0]);
      DeliveryBound(s, acts[0], h, group);
      if h in s'.waiting {
        DeliveredOnlyByLowerPumps(s', acts[1..], h, group);
      } else {
        assert Copies(s, h) == 1;
        GoneNeverWaits(s', acts[1..], h, group);
      }
    }
  }

  lemma {:induction false} DeliveriesBounded(s: State, acts: seq<Action>, h: Ticket, group: set<nat>)
    requires Sound(s) && Possible(s, acts)
    ensures LowerDeliveries(s, acts, h, group) <= |group|
    decreases |acts|
  {
    if h in s.waiting {
      assert Copies(s, h) == One(h < |s.pushed|);
      DeliveredOnlyByLowerPumps(s, acts, h, group);
      SubsetSmaller(LowerPumps(s, h, group), group);
    } else if acts != [] {
      StepKeepsSound(s, acts[0]);
      DeliveriesBounded(Do(s, acts[0]), acts[1..], h, group);
    }
  }

  /** In every run of `n` workers, cancelled or not, while a job waits on its channel the workers are given
      at most one job of lower priority each, at most `n` in all. */
  lemma BoundedLowerDeliveries(n: nat, withFailed: bool, acts: seq<Action>, h: Ticket, group: set<nat>)
    requires Possible(Initial(n, withFailed), acts)
    ensures LowerDeliveries(Initial(n, withFailed), acts, h, group) <= |group|
    ensures LowerDeliveries(Initial(n, withFailed), acts, h, AllPumps(n)) <= n
  {
    InitialIsSound(n, withFailed);
    DeliveriesBounded(Initial(n, withFailed), acts, h, group);
    DeliveriesBounded(Initial(n, withFailed), acts, h, AllPumps(n));
  }

  // The bound is attained.

  /** Ticket 0 waits on p0, `k` low-priority jobs have overtaken it, and the remaining pumps stand at
      their last select. */
  ghost predicate HighWaits(s: State, k: nat)
  {
    && !s.crashed && !Done(s) && k <= |s.pumps| && |s.pushed| == k + 1
    && s.waiting == {0} && s.pushed[0].job.priority == 0
    && forall i | k <= i < |s.pumps| :: s.pumps[i] == AtBottom
  }

  /** A run without cancellation in which `count` jobs of lower priority overtake ticket 0. */
  ghost predicate Shows(s: State, acts: seq<Action>, group: set<nat>, count: nat)
  {
    Possible(s, acts) && Overtakings(s, acts, 0, group) == count && !Done(After(s, acts))
  }

  lemma Prepend(s: State, a: Action, acts: seq<Action>, group: set<nat>, count: nat)
    requires Enabled(s, a) && Shows(Do(s, a), acts, group, count)
    ensures Shows(s, [a] + acts, group, count + One(Overtakes(s, a, 0, group)))
  {
    assert ([a] + acts)[1..] == acts;
  }

  /** A job of low priority is pushed and its pusher parks; the next pump may receive it. */
  ghost function LowArrives(s: State, k: nat): (s': State)
    requires HighWaits(s, k) && k < |s.pumps|
    ensures Enabled(s', ByPump(k, Receive(k + 1)))
    ensures Overtakes(s', ByPump(k, Receive(k + 1)), 0, AllPumps(|s.pumps|))
    ensures HighWaits(Do(s', ByPump(k, Receive(k + 1))), k + 1) && |s'.pumps| == |s.pumps|
  {
    Do(Do(s, ByPusher(PushSeed(Job(0, 2, true)))), ByPusher(Park(k + 1)))
  }

  lemma {:induction false} OvertakeWithTheRest(s: State, k: nat) returns (acts: seq<Action>)
    requires HighWaits(s, k)
    ensures Shows(s, acts, AllPumps(|s.pumps|), |s.pumps| - k)
    decreases |s.pumps| - k
  {
    if k == |s.pumps| {
      acts := [];
    } else {
      var group := AllPumps(|s.pumps|);
      var push, park := ByPusher(PushSeed(Job(0, 2, true))), ByPusher(Park(k + 1));
      var receive := ByPump(k, Receive(k + 1));
      acts := OvertakeWithTheRest(Do(LowArrives(s, k), receive), k + 1);
      Prepend(LowArrives(s, k), receive, acts, group, |s.pumps| - k - 1);
      Prepend(Do(s, push), park, [receive] + acts, group, |s.pumps| - k);
      Prepend(s, push, [park] + ([receive] + acts), group, |s.pumps| - k);
      acts := [push] + ([park] + ([receive] + acts));
    }
  }

  /** Nothing is pushed yet; the first `k` pumps stand at their last select, the others are not started. */
  ghost predicate Warming(s: State, k: nat)
  {
    && !s.crashed && !Done(s) && k <= |s.pumps| == |s.workers| && s.pushed == [] && s.waiting == {}
    && (forall i | 0 <= i < k :: s.pumps[i] == AtBottom)
    && (forall i | k <= i < |s.pumps| :: s.workers[i] == Launched)
  }

  lemma {:induction false} WarmUpAndOvertake(s: State, k: nat) returns (acts: seq<Action>)
    requires Warming(s, k)
    ensures Shows(s, acts, AllPumps(|s.pumps|), |s.pumps|)
    decreases |s.pumps| - k
  {
    var n := |s.pumps|;
    if k == n {
      var push, park := ByPusher(PushSeed(Job(0, 0, true))), ByPusher(Park(0));
      acts := OvertakeWithTheRest(Do(Do(s, push), park), 0);
      Prepend(Do(s, push), park, acts, AllPumps(n), n);
      Prepend(s, push, [park] + acts, AllPumps(n), n);
      acts := [push] + ([park] + acts);
    } else {
      acts := WarmUpAndOvertake(WarmOnePump(s, k), k + 1);
      var start, default := ByWorker(k, StartWorker), ByPump(k, Default);
      Prepend(Do(Do(s, start), default), default, acts, AllPumps(n), n);
      Prepend(Do(s, start), default, [default] + acts, AllPumps(n), n);
      Prepend(s, start, [default] + ([default] + acts), AllPumps(n), n);
      acts := [start] + ([default] + ([default] + acts));
    }
  }

  /** Pump `k` starts and finds no job at its first two selects. */
  ghost function WarmOnePump(s: State, k: nat): (s': State)
    requires Warming(s, k) && k < |s.pumps|
    ensures Warming(s', k + 1) && |s'.pumps| == |s.pumps|
  {
    Do(Do(Do(s, ByWorker(k, StartWorker)), ByPump(k, Default)), ByPump(k, Default))
  }

  /** For every number of workers there is a run, without cancellation, in which exactly that many
      low-priority jobs overtake one waiting high-priority job. */
  lemma InversionBoundIsAttained(n: nat, withFailed: bool)
    ensures exists acts, h :: Possible(Initial(n, withFailed), acts)
                              && Overtakings(Initial(n, withFailed), acts, h, AllPumps(n)) == n
                              && !Done(After(Initial(n, withFailed), acts))
  {
    var s := Initial(n, withFailed);
    var init := ByMain(InitSucceeds);
    var rest := WarmUpAndOvertake(Do(s, init), 0);
    Prepend(s, init, rest, AllPumps(n), n);
    assert Overtakings(s, [init] + rest, 0, AllPumps(n)) == n;
  }
}
