/** Fetches that share the session slots, step by step, and the browsers the slots own. */
module SessionPool {
  import opened Bags

  /** Where a fetch stands: outside; waiting for a slot; with one; between finding that the slot has no
      runtime and making it; with the slot ready; about to put it back. */
  datatype Phase =
    | Free
    | Waiting
    | Holding(slot: nat)
    | Creating(slot: nat)
    | Using(slot: nat)
    | Leaving(slot: nat)

  /** A fetch, and whether the context it was called with is done. The job's own timeout, which is set later,
      does not matter for the slot. */
  datatype Fetch = Fetch(phase: Phase, done: bool)

  const AtRest := Fetch(Free, false)

  /** How `newBrowser` ends: the browser runs, did not launch, or launched but got no context, in which
      case nobody refers to it any more. */
  datatype Launch = Running | NotLaunched | NoContext

  /** A slot's runtime, whether its browser runs, how many runtimes were made for it, and how many
      browsers were launched for it and left behind. */
  datatype Slot = Slot(hasRuntime: bool, live: bool, created: nat, stray: nat)

  datatype System = System(idle: seq<nat>, fetches: seq<Fetch>, closed: seq<nat>, slots: seq<Slot>)

  datatype Step =
    | Begin(w: nat)
    | ContextEnds(w: nat)
    | GiveUp(w: nat)
    | Get(w: nat)
    | FindReady(w: nat)
    | FindMissing(w: nat)
    | Create(w: nat, launch: Launch)
    | Rebuild(w: nat, launch: Launch)
    | Finish(w: nat)
    | Put(w: nat)
    | PutUnderDoneContext(w: nat)

  function Upto(n: nat): seq<nat> { seq(n, i => i) }

  function Start(poolSize: nat, workers: nat): System
  {
    System(Upto(poolSize), seq(workers, _ => AtRest), [], seq(poolSize, _ => Slot(false, false, 0, 0)))
  }

  /** The fetch has a slot. */
  predicate HasSlot(f: Fetch) { !f.phase.Free? && !f.phase.Waiting? }

  /** Where the context is one case of a select it is never the only one that may be taken: a fetch under a
      done context can still get a slot, or put one back. Only such a fetch closes its slot. */
  predicate Enabled(s: System, a: Step)
  {
    && a.w < |s.fetches|
    && (HasSlot(s.fetches[a.w]) ==> s.fetches[a.w].phase.slot < |s.slots|)
    && match a
       case Begin(w) => s.fetches[w].phase.Free?
       case ContextEnds(w) => !s.fetches[w].phase.Free? && !s.fetches[w].done
       case GiveUp(w) => s.fetches[w].phase.Waiting? && s.fetches[w].done
       case Get(w) => s.fetches[w].phase.Waiting? && s.idle != []
       case FindReady(w) => s.fetches[w].phase.Holding? && s.slots[s.fetches[w].phase.slot].hasRuntime
       case FindMissing(w) => s.fetches[w].phase.Holding? && !s.slots[s.fetches[w].phase.slot].hasRuntime
       case Create(w, _) => s.fetches[w].phase.Creating?
       case Rebuild(w, _) => s.fetches[w].phase.Using?
       case Finish(w) => s.fetches[w].phase.Using?
       case Put(w) => s.fetches[w].phase.Leaving?
       case PutUnderDoneContext(w) => s.fetches[w].phase.Leaving? && s.fetches[w].done
  }

  function FetchGoesTo(s: System, a: Step): Fetch
    requires Enabled(s, a)
  {
    var f := s.fetches[a.w];
    match a
    case Begin(_) => Fetch(Waiting, false)
    case ContextEnds(_) => f.(done := true)
    case GiveUp(_) => AtRest
    case Get(_) => f.(phase := Holding(s.idle[0]))
    case FindReady(_) => f.(phase := Using(f.phase.slot))
    case FindMissing(_) => f.(phase := Creating(f.phase.slot))
    case Create(_, launch) =>
      f.(phase := if launch == Running then Using(f.phase.slot) else Leaving(f.phase.slot))
    case Rebuild(_, _) => f
    case Finish(_) => f.(phase := Leaving(f.phase.slot))
    case Put(_) => AtRest
    case PutUnderDoneContext(_) => AtRest
  }

  /** The slot's browser after the step. Making a runtime sets the slot's field whatever it held; a
      rebuild closes the old browser first and keeps the runtime even when the launch fails. */
  function SlotAfter(x: Slot, a: Step): Slot
  {
    match a
    case Create(_, launch) =>
      if launch == Running
      then Slot(true, true, x.created + 1, x.stray + if x.live then 1 else 0)
      else x.(stray := x.stray + if launch == NoContext then 1 else 0)
    case Rebuild(_, launch) =>
      x.(live := launch == Running, stray := x.stray + if launch == NoContext then 1 else 0)
    case PutUnderDoneContext(_) => x.(live := false)
    case _ => x
  }

  function Do(s: System, a: Step): System
    requires Enabled(s, a)
  {
    var f := s.fetches[a.w];
    System(
      if a.Get? then s.idle[1..] else if a.Put? then s.idle + [f.phase.slot] else s.idle,
      s.fetches[a.w := FetchGoesTo(s, a)],
      if a.PutUnderDoneContext? then s.closed + [f.phase.slot] else s.closed,
      if HasSlot(f) then s.slots[f.phase.slot := SlotAfter(s.slots[f.phase.slot], a)] else s.slots)
  }

  function FetchLoad(f: Fetch): multiset<nat> { if HasSlot(f) then multiset{f.phase.slot} else multiset{} }

  /** In how many places slot `j` is. */
  function Copies(s: System, j: nat): nat
  {
    multiset(s.idle)[j] + Held(s.fetches, FetchLoad, j) + multiset(s.closed)[j]
  }

  function Occupied(f: Fetch): nat { if HasSlot(f) then 1 else 0 }

  predicate SlotSound(x: Slot)
  {
    x.created <= 1 && x.hasRuntime == (x.created == 1) && (x.live ==> x.hasRuntime)
  }

  /** A slot being made ready has no runtime yet; a slot in use has one. */
  predicate FetchSound(s: System, f: Fetch)
  {
    match f.phase
    case Creating(j) => j < |s.slots| && !s.slots[j].hasRuntime
    case Using(j) => j < |s.slots| && s.slots[j].hasRuntime
    case _ => true
  }

  ghost predicate Sound(s: System)
  {
    && (forall j: nat :: Copies(s, j) == if j < |s.slots| then 1 else 0)
    && |s.idle| + Total(s.fetches, Occupied) + |s.closed| == |s.slots|
    && (forall j | 0 <= j < |s.slots| :: SlotSound(s.slots[j]))
    && (forall w | 0 <= w < |s.fetches| :: FetchSound(s, s.fetches[w]))
    && (forall j | j in s.closed :: j < |s.slots| && !s.slots[j].live)
  }

  lemma {:induction false} UptoCounts(n: nat, j: nat)
    ensures multiset(Upto(n))[j] == if j < n then 1 else 0
  {
    if n > 0 {
      UptoCounts(n - 1, j);
      assert Upto(n) == Upto(n - 1) + [n - 1];
    }
  }

  lemma StartIsSound(poolSize: nat, workers: nat)
    ensures Sound(Start(poolSize, workers))
  {
    var s := Start(poolSize, workers);
    forall j: nat ensures Copies(s, j) == if j < poolSize then 1 else 0 {
      UptoCounts(poolSize, j);
      HeldByNobody(s.fetches, FetchLoad, j);
    }
    TotalNothing(s.fetches, Occupied);
  }

  /** A step that neither gets nor puts leaves every slot where it is. */
  lemma OtherStepsMoveNothing(s: System, a: Step)
    requires Enabled(s, a) && !a.Get? && !a.Put? && !a.PutUnderDoneContext?
    ensures var s' := Do(s, a);
            && s'.idle == s.idle && s'.closed == s.closed
            && FetchLoad(s'.fetches[a.w]) == FetchLoad(s.fetches[a.w])
  {
  }

  /** The channel, the fetch and the list of closed slots hand a slot on, one to the other. */
  lemma StepMovesSlot(s: System, a: Step, j: nat)
    requires Enabled(s, a)
    ensures var s' := Do(s, a);
            multiset(s'.idle)[j] + FetchLoad(s'.fetches[a.w])[j] + multiset(s'.closed)[j]
            == multiset(s.idle)[j] + FetchLoad(s.fetches[a.w])[j] + multiset(s.closed)[j]
  {
    if a.Get? {
      TakeOut(s.idle, j);
      assert Do(s, a).idle == s.idle[1..];
    } else if a.Put? {
      assert Do(s, a).idle == s.idle + [s.fetches[a.w].phase.slot];
    } else if a.PutUnderDoneContext? {
      assert Do(s, a).closed == s.closed + [s.fetches[a.w].phase.slot];
    } else {
      OtherStepsMoveNothing(s, a);
    }
  }

  lemma StepKeepsCopies(s: System, a: Step, j: nat)
    requires Enabled(s, a)
    ensures Copies(Do(s, a), j) == Copies(s, j)
  {
    HeldUpdate(s.fetches, FetchLoad, a.w, Do(s, a).fetches[a.w], j);
    StepMovesSlot(s, a, j);
  }

  /** The slot a fetch holds is nowhere else. */
  lemma HeldSlotIsExclusive(s: System, w: nat)
    requires Sound(s) && w < |s.fetches| && HasSlot(s.fetches[w])
    ensures var j := s.fetches[w].phase.slot;
            && j < |s.slots| && j !in s.idle && j !in s.closed
            && forall v | 0 <= v < |s.fetches| && v != w && HasSlot(s.fetches[v]) :: s.fetches[v].phase.slot != j
  {
    var j := s.fetches[w].phase.slot;
    assert Copies(s, j) == if j < |s.slots| then 1 else 0;
    HeldContains(s.fetches, FetchLoad, w, j);
    forall v | 0 <= v < |s.fetches| && v != w && HasSlot(s.fetches[v]) ensures s.fetches[v].phase.slot != j {
      if v < w { HeldByTwo(s.fetches, FetchLoad, v, w, j); } else { HeldByTwo(s.fetches, FetchLoad, w, v, j); }
    }
  }

  lemma StepKeepsSound(s: System, a: Step)
    requires Sound(s) && Enabled(s, a)
    ensures Sound(Do(s, a))
  {
    var s' := Do(s, a);
    forall j: nat ensures Copies(s', j) == if j < |s'.slots| then 1 else 0 {
      assert Copies(s, j) == if j < |s.slots| then 1 else 0;
      StepKeepsCopies(s, a, j);
    }
    StepKeepsNumber(s, a);
    StepKeepsSlots(s, a);
  }

  lemma StepKeepsNumber(s: System, a: Step)
    requires Enabled(s, a)
    ensures var s' := Do(s, a);
            && |s'.slots| == |s.slots|
            && |s'.idle| + Total(s'.fetches, Occupied) + |s'.closed|
               == |s.idle| + Total(s.fetches, Occupied) + |s.closed|
  {
    TotalUpdate(s.fetches, Occupied, a.w, FetchGoesTo(s, a));
  }

  lemma StepKeepsSlot(s: System, a: Step, j: nat)
    requires Sound(s) && Enabled(s, a) && j < |s.slots|
    ensures j < |Do(s, a).slots| && SlotSound(Do(s, a).slots[j])
  {
    var f := s.fetches[a.w];
    assert SlotSound(s.slots[j]) && FetchSound(s, f);
  }

  /** Only the fetch that holds a slot changes it. */
  lemma StepKeepsFetch(s: System, a: Step, v: nat)
    requires Sound(s) && Enabled(s, a) && v < |s.fetches|
    ensures v < |Do(s, a).fetches| && FetchSound(Do(s, a), Do(s, a).fetches[v])
  {
    assert FetchSound(s, s.fetches[v]);
    if HasSlot(s.fetches[a.w]) && v != a.w { HeldSlotIsExclusive(s, a.w); }
  }

  lemma StepKeepsClosed(s: System, a: Step, j: nat)
    requires Sound(s) && Enabled(s, a) && j in Do(s, a).closed
    ensures j < |Do(s, a).slots| && !Do(s, a).slots[j].live
  {
    if HasSlot(s.fetches[a.w]) { HeldSlotIsExclusive(s, a.w); }
  }

  lemma StepKeepsSlots(s: System, a: Step)
    requires Sound(s) && Enabled(s, a)
    ensures var s' := Do(s, a);
            && (forall j | 0 <= j < |s'.slots| :: SlotSound(s'.slots[j]))
            && (forall w | 0 <= w < |s'.fetches| :: FetchSound(s', s'.fetches[w]))
            && (forall j | j in s'.closed :: j < |s'.slots| && !s'.slots[j].live)
  {
    var s' := Do(s, a);
    forall j | 0 <= j < |s'.slots| ensures SlotSound(s'.slots[j]) { StepKeepsSlot(s, a, j); }
    forall w | 0 <= w < |s'.fetches| ensures FetchSound(s', s'.fetches[w]) { StepKeepsFetch(s, a, w); }
    forall j | j in s'.closed ensures j < |s'.slots| && !s'.slots[j].live { StepKeepsClosed(s, a, j); }
  }

  predicate Possible(s: System, acts: seq<Step>)
    decreases |acts|
  {
    acts == [] || (Enabled(s, acts[0]) && Possible(Do(s, acts[0]), acts[1..]))
  }

  function After(s: System, acts: seq<Step>): System
    requires Possible(s, acts)
    decreases |acts|
  {
    if acts == [] then s else After(Do(s, acts[0]), acts[1..])
  }

  lemma {:induction false} RunKeepsSound(s: System, acts: seq<Step>)
    requires Sound(s) && Possible(s, acts)
    ensures Sound(After(s, acts)) && |After(s, acts).slots| == |s.slots|
    decreases |acts|
  {
    if acts != [] {
      StepKeepsSound(s, acts[0]);
      RunKeepsSound(Do(s, acts[0]), acts[1..]);
    }
  }

  lemma ReachableIsSound(poolSize: nat, workers: nat, acts: seq<Step>)
    requires Possible(Start(poolSize, workers), acts)
    ensures Sound(After(Start(poolSize, workers), acts))
    ensures |After(Start(poolSize, workers), acts).slots| == poolSize
  {
    StartIsSound(poolSize, workers);
    RunKeepsSound(Start(poolSize, workers), acts);
  }

  /** Over all interleavings no slot is held by two fetches, nor held and idle or closed at once; idle,
      held and closed slots add up to the pool size; and a fetch that puts its slot back finds room in
      the channel. */
  lemma SlotsAreExclusive(poolSize: nat, workers: nat, acts: seq<Step>, v: nat, w: nat)
    requires Possible(Start(poolSize, workers), acts)
    ensures var s := After(Start(poolSize, workers), acts);
            && |s.idle| + Total(s.fetches, Occupied) + |s.closed| == poolSize
            && (w < |s.fetches| && HasSlot(s.fetches[w]) ==>
                  && s.fetches[w].phase.slot < poolSize && |s.idle| < poolSize
                  && s.fetches[w].phase.slot !in s.idle && s.fetches[w].phase.slot !in s.closed
                  && (v < |s.fetches| && v != w && HasSlot(s.fetches[v]) ==>
                        s.fetches[v].phase.slot != s.fetches[w].phase.slot))
  {
    ReachableIsSound(poolSize, workers, acts);
    var s := After(Start(poolSize, workers), acts);
    if w < |s.fetches| && HasSlot(s.fetches[w]) {
      HeldSlotIsExclusive(s, w);
      TotalAtLeast(s.fetches, Occupied, w);
    }
  }

  /** In this run no fetch that holds slot `j` makes a runtime for it, whatever the other slots do. */
  predicate NobodyCreates(s: System, acts: seq<Step>, j: nat)
    requires Possible(s, acts)
    decreases |acts|
  {
    acts == []
    || (!(acts[0].Create? && s.fetches[acts[0].w].phase.slot == j) && NobodyCreates(Do(s, acts[0]), acts[1..], j))
  }

  /** Over all interleavings a slot gets at most one runtime, none before its own first use, owns at most
      one running browser, and none once it is closed. */
  lemma OneRuntimePerSlot(poolSize: nat, workers: nat, acts: seq<Step>, j: nat)
    requires Possible(Start(poolSize, workers), acts) && j < poolSize
    ensures var s := After(Start(poolSize, workers), acts);
            && j < |s.slots| && s.slots[j].created <= 1
            && (s.slots[j].live ==> s.slots[j].created == 1)
            && (j in s.closed ==> !s.slots[j].live)
            && (NobodyCreates(Start(poolSize, workers), acts, j) ==> s.slots[j] == Slot(false, false, 0, 0))
  {
    StartIsSound(poolSize, workers);
    ReachableIsSound(poolSize, workers, acts);
    var s := After(Start(poolSize, workers), acts);
    assert SlotSound(s.slots[j]);
    if NobodyCreates(Start(poolSize, workers), acts, j) { UnusedStaysEmpty(Start(poolSize, workers), acts, j); }
  }

  /** Only a slot that has a runtime can be rebuilt. */
  lemma StepLeavesUnused(s: System, a: Step, j: nat)
    requires Sound(s) && Enabled(s, a) && j < |s.slots| && s.slots[j] == Slot(false, false, 0, 0)
    requires !(a.Create? && s.fetches[a.w].phase.slot == j)
    ensures |Do(s, a).slots| == |s.slots| && Do(s, a).slots[j] == s.slots[j]
  {
    assert FetchSound(s, s.fetches[a.w]);
  }

  lemma {:induction false} UnusedStaysEmpty(s: System, acts: seq<Step>, j: nat)
    requires Sound(s) && Possible(s, acts) && j < |s.slots| && s.slots[j] == Slot(false, false, 0, 0)
    requires NobodyCreates(s, acts, j)
    ensures |After(s, acts).slots| == |s.slots| && After(s, acts).slots[j] == s.slots[j]
    decreases |acts|
  {
    if acts != [] {
      StepLeavesUnused(s, acts[0], j);
      StepKeepsSound(s, acts[0]);
      UnusedStaysEmpty(Do(s, acts[0]), acts[1..], j);
    }
  }

  function StrayOf(x: Slot): nat { x.stray }

  function LiveOf(x: Slot): nat { if x.live then 1 else 0 }

  /** The step launches a browser that gets no context. */
  predicate LeavesABrowser(a: Step) { (a.Create? || a.Rebuild?) && a.launch == NoContext }

  function BrowsersLeft(acts: seq<Step>): nat
  {
    if acts == [] then 0 else (if LeavesABrowser(acts[0]) then 1 else 0) + BrowsersLeft(acts[1..])
  }

  /** The step launches a browser, with or without getting a context for it. */
  predicate Launches(a: Step) { (a.Create? || a.Rebuild?) && a.launch != NotLaunched }

  function BrowsersLaunched(acts: seq<Step>): nat
  {
    if acts == [] then 0 else (if Launches(acts[0]) then 1 else 0) + BrowsersLaunched(acts[1..])
  }

  /** The step closes the browser of its slot: to rebuild it, or with the slot. */
  predicate ClosesABrowser(s: System, a: Step)
    requires Enabled(s, a)
  {
    (a.Rebuild? || a.PutUnderDoneContext?) && s.slots[s.fetches[a.w].phase.slot].live
  }

  function BrowsersClosed(s: System, acts: seq<Step>): nat
    requires Possible(s, acts)
    decreases |acts|
  {
    if acts == [] then 0
    else (if ClosesABrowser(s, acts[0]) then 1 else 0) + BrowsersClosed(Do(s, acts[0]), acts[1..])
  }

  /** Making a runtime never overwrites one whose browser runs. */
  lemma StepLeaves(s: System, a: Step)
    requires Sound(s) && Enabled(s, a)
    ensures var s' := Do(s, a);
            && Total(s'.slots, StrayOf) == Total(s.slots, StrayOf) + (if LeavesABrowser(a) then 1 else 0)
            && Total(s'.slots, LiveOf) + Total(s'.slots, StrayOf) + (if ClosesABrowser(s, a) then 1 else 0)
               == Total(s.slots, LiveOf) + Total(s.slots, StrayOf) + if Launches(a) then 1 else 0
  {
    var f := s.fetches[a.w];
    if HasSlot(f) {
      var j := f.phase.slot;
      TotalUpdate(s.slots, StrayOf, j, SlotAfter(s.slots[j], a));
      TotalUpdate(s.slots, LiveOf, j, SlotAfter(s.slots[j], a));
      assert FetchSound(s, f) && SlotSound(s.slots[j]);
    }
  }

  lemma {:induction false} RunLeaves(s: System, acts: seq<Step>)
    requires Sound(s) && Possible(s, acts)
    ensures var s' := After(s, acts);
            && Total(s'.slots, StrayOf) == Total(s.slots, StrayOf) + BrowsersLeft(acts)
            && Total(s'.slots, LiveOf) + Total(s'.slots, StrayOf) + BrowsersClosed(s, acts)
               == Total(s.slots, LiveOf) + Total(s.slots, StrayOf) + BrowsersLaunched(acts)
    decreases |acts|
  {
    if acts != [] {
      StepKeepsSound(s, acts[0]);
      StepLeaves(s, acts[0]);
      RunLeaves(Do(s, acts[0]), acts[1..]);
    }
  }

  /** Over all interleavings the slots own at most as many running browsers as there are slots; the browsers
      left behind without an owner are exactly those that were launched but got no context; and every
      browser that was launched is running in its slot, left behind, or closed. */
  lemma BrowsersAreLeftOnlyWithoutContext(poolSize: nat, workers: nat, acts: seq<Step>)
    requires Possible(Start(poolSize, workers), acts)
    ensures var s := After(Start(poolSize, workers), acts);
            && Total(s.slots, LiveOf) <= poolSize
            && Total(s.slots, StrayOf) == BrowsersLeft(acts)
            && Total(s.slots, LiveOf) + Total(s.slots, StrayOf) + BrowsersClosed(Start(poolSize, workers), acts)
               == BrowsersLaunched(acts)
  {
    StartIsSound(poolSize, workers);
    ReachableIsSound(poolSize, workers, acts);
    TotalNothing(Start(poolSize, workers).slots, StrayOf);
    TotalNothing(Start(poolSize, workers).slots, LiveOf);
    RunLeaves(Start(poolSize, workers), acts);
    TotalBound(After(Start(poolSize, workers), acts).slots, LiveOf);
  }

  // The order of the slots.

  /** The slot the step gets, and the one it puts back. */
  function Got(s: System, a: Step): seq<nat>
    requires Enabled(s, a)
  {
    if a.Get? then [s.idle[0]] else []
  }

  function PutBack(s: System, a: Step): seq<nat>
    requires Enabled(s, a)
  {
    if a.Put? then [s.fetches[a.w].phase.slot] else []
  }

  function AllGot(s: System, acts: seq<Step>): seq<nat>
    requires Possible(s, acts)
    decreases |acts|
  {
    if acts == [] then [] else Got(s, acts[0]) + AllGot(Do(s, acts[0]), acts[1..])
  }

  function AllPutBack(s: System, acts: seq<Step>): seq<nat>
    requires Possible(s, acts)
    decreases |acts|
  {
    if acts == [] then [] else PutBack(s, acts[0]) + AllPutBack(Do(s, acts[0]), acts[1..])
  }

  lemma StepKeepsOrder(s: System, a: Step)
    requires Enabled(s, a)
    ensures s.idle + PutBack(s, a) == Got(s, a) + Do(s, a).idle
  {
  }

  lemma {:induction false} RunKeepsOrder(s: System, acts: seq<Step>)
    requires Possible(s, acts)
    ensures s.idle + AllPutBack(s, acts) == AllGot(s, acts) + After(s, acts).idle
    decreases |acts|
  {
    if acts == [] {
      assert s.idle + [] == [] + s.idle;
    } else {
      var t, more := Do(s, acts[0]), acts[1..];
      StepKeepsOrder(s, acts[0]);
      RunKeepsOrder(t, more);
      QueueGoesOn(s.idle, PutBack(s, acts[0]), Got(s, acts[0]), t.idle,
                  AllPutBack(t, more), AllGot(t, more), After(t, more).idle);
    }
  }

  /** First in, first out: in every run the slots of the new pool, in order, followed by those put back, are
      those that were got, followed by those left. */
  lemma SlotsKeepTheirOrder(poolSize: nat, workers: nat, acts: seq<Step>)
    requires Possible(Start(poolSize, workers), acts)
    ensures var s := Start(poolSize, workers);
            && |s.idle| == poolSize && (forall i | 0 <= i < poolSize :: s.idle[i] == i)
            && s.idle + AllPutBack(s, acts) == AllGot(s, acts) + After(s, acts).idle
  {
    RunKeepsOrder(Start(poolSize, workers), acts);
  }

  // Availability.

  lemma {:induction false} NotAllOccupied(fetches: seq<Fetch>, w: nat)
    requires w < |fetches| && !HasSlot(fetches[w])
    ensures Total(fetches, Occupied) < |fetches|
  {
    if w == 0 {
      TotalBound(fetches[1..], Occupied);
    } else {
      NotAllOccupied(fetches[1..], w - 1);
    }
  }

  lemma {:induction false} RunKeepsFetches(s: System, acts: seq<Step>)
    requires Possible(s, acts)
    ensures |After(s, acts).fetches| == |s.fetches|
    decreases |acts|
  {
    if acts != [] { RunKeepsFetches(Do(s, acts[0]), acts[1..]); }
  }

  /** As long as the slots that have not been closed are enough for all workers, one that waits finds a
      slot. */
  lemma GetFindsASlot(poolSize: nat, workers: nat, acts: seq<Step>, w: nat)
    requires Possible(Start(poolSize, workers), acts)
    ensures var s := After(Start(poolSize, workers), acts);
            w < |s.fetches| && s.fetches[w].phase == Waiting && |s.closed| + workers <= poolSize
            ==> Enabled(s, Get(w))
  {
    ReachableIsSound(poolSize, workers, acts);
    RunKeepsFetches(Start(poolSize, workers), acts);
    var s := After(Start(poolSize, workers), acts);
    if w < |s.fetches| && s.fetches[w].phase == Waiting { NotAllOccupied(s.fetches, w); }
  }

  // How slots get closed.

  function ContextsEnded(acts: seq<Step>): nat
  {
    if acts == [] then 0 else (if acts[0].ContextEnds? then 1 else 0) + ContextsEnded(acts[1..])
  }

  /** How many fetches give up without a slot. */
  function GivenUp(acts: seq<Step>): nat
  {
    if acts == [] then 0 else (if acts[0].GiveUp? then 1 else 0) + GivenUp(acts[1..])
  }

  function IsDone(f: Fetch): nat { if f.done then 1 else 0 }

  lemma {:induction false} ClosingNeedsContexts(s: System, acts: seq<Step>)
    requires Possible(s, acts)
    ensures var s' := After(s, acts);
            |s'.closed| + Total(s'.fetches, IsDone) + GivenUp(acts)
            <= |s.closed| + Total(s.fetches, IsDone) + ContextsEnded(acts)
    decreases |acts|
  {
    if acts != [] {
      TotalUpdate(s.fetches, IsDone, acts[0].w, FetchGoesTo(s, acts[0]));
      ClosingNeedsContexts(Do(s, acts[0]), acts[1..]);
    }
  }

  /** In every run the closed slots and the fetches that gave up without a slot are at most the contexts that
      ended. */
  lemma EveryClosedSlotHadADoneContext(poolSize: nat, workers: nat, acts: seq<Step>)
    requires Possible(Start(poolSize, workers), acts)
    ensures |After(Start(poolSize, workers), acts).closed| + GivenUp(acts) <= ContextsEnded(acts)
  {
    TotalNothing(Start(poolSize, workers).fetches, IsDone);
    ClosingNeedsContexts(Start(poolSize, workers), acts);
  }

  ghost predicate Leads(s: System, acts: seq<Step>, t: System)
  {
    Possible(s, acts) && After(s, acts) == t
  }

  lemma Then(s: System, a: Step, acts: seq<Step>, t: System)
    requires Enabled(s, a) && Leads(Do(s, a), acts, t)
    ensures Leads(s, [a] + acts, t)
  {
    assert ([a] + acts)[1..] == acts;
  }

  lemma FirstLeads(s: System, acts: seq<Step>, t: System)
    requires Leads(s, acts, t) && acts != []
    ensures Enabled(s, acts[0]) && Leads(Do(s, acts[0]), acts[1..], t)
  {
  }

  /** Worker 0 waits for a slot, and its context ends. */
  lemma WaitUnderDoneContext(s: System) returns (t: System)
    requires Sound(s) && |s.fetches| >= 1 && s.fetches[0] == AtRest
    ensures Leads(s, [Begin(0)] + ([ContextEnds(0)] + []), t) && Sound(t)
    ensures t == s.(fetches := s.fetches[0 := Fetch(Waiting, true)])
  {
    StepKeepsSound(s, Begin(0));
    var s1 := Do(s, Begin(0));
    StepKeepsSound(s1, ContextEnds(0));
    t := Do(s1, ContextEnds(0));
    assert Leads(t, [], t);
    Then(s1, ContextEnds(0), [], t);
    Then(s, Begin(0), [ContextEnds(0)] + [], t);
  }

  /** Worker 0 gets a slot, fails to launch its browser or uses the one it finds, and closes the slot. */
  lemma CloseTheFirst(s: System) returns (acts: seq<Step>, t: System)
    requires Sound(s) && |s.fetches| >= 1 && s.fetches[0] == Fetch(Waiting, true) && s.idle != []
    ensures Leads(s, acts, t) && Sound(t) && |t.closed| == |s.closed| + 1
    ensures t.fetches == s.fetches[0 := AtRest] && t.idle == s.idle[1..]
  {
    StepKeepsSound(s, Get(0));
    var s1 := Do(s, Get(0));
    HeldSlotIsExclusive(s1, 0);
    var ready := s1.slots[s1.fetches[0].phase.slot].hasRuntime;
    var a, b := if ready then FindReady(0) else FindMissing(0), if ready then Finish(0) else Create(0, NotLaunched);
    StepKeepsSound(s1, a);
    var s2 := Do(s1, a);
    StepKeepsSound(s2, b);
    var s3 := Do(s2, b);
    StepKeepsSound(s3, PutUnderDoneContext(0));
    t := Do(s3, PutUnderDoneContext(0));
    assert Leads(t, [], t);
    Then(s3, PutUnderDoneContext(0), [], t);
    Then(s2, b, [PutUnderDoneContext(0)] + [], t);
    Then(s1, a, [b] + ([PutUnderDoneContext(0)] + []), t);
    Then(s, Get(0), [a] + ([b] + ([PutUnderDoneContext(0)] + [])), t);
    acts := [Get(0)] + ([a] + ([b] + ([PutUnderDoneContext(0)] + [])));
  }

  lemma {:induction false} Append(s: System, acts: seq<Step>, t: System, more: seq<Step>, u: System)
    requires Leads(s, acts, t) && Leads(t, more, u)
    ensures Leads(s, acts + more, u)
    decreases |acts|
  {
    if acts == [] {
      assert acts + more == more;
    } else {
      FirstLeads(s, acts, t);
      Append(Do(s, acts[0]), acts[1..], t, more, u);
      ThenAll(s, acts, more, u);
    }
  }

  lemma ThenAll(s: System, acts: seq<Step>, more: seq<Step>, u: System)
    requires acts != [] && Enabled(s, acts[0]) && Leads(Do(s, acts[0]), acts[1..] + more, u)
    ensures Leads(s, acts + more, u)
  {
    Then(s, acts[0], acts[1..] + more, u);
    assert [acts[0]] + (acts[1..] + more) == acts + more;
  }

  /** Worker 0 closes `d` slots, one after the other. */
  lemma {:induction false} CloseSlots(s: System, d: nat) returns (acts: seq<Step>, t: System)
    requires Sound(s) && |s.fetches| >= 1 && s.fetches[0] == AtRest && d <= |s.idle|
    ensures Leads(s, acts, t) && Sound(t) && |t.closed| == |s.closed| + d
    ensures t.fetches == s.fetches && |t.idle| == |s.idle| - d
    decreases d
  {
    if d == 0 {
      acts, t := [], s;
    } else {
      var s1 := WaitUnderDoneContext(s);
      var first, s2 := CloseTheFirst(s1);
      assert s2.fetches == s.fetches;
      acts, t := CloseSlots(s2, d - 1);
      Append(s1, first, s2, acts, t);
      Append(s, [Begin(0)] + ([ContextEnds(0)] + []), s1, first + acts, t);
      acts := ([Begin(0)] + ([ContextEnds(0)] + [])) + (first + acts);
    }
  }

  lemma NobodyActs(s: System, acts: seq<Step>)
    requires s.fetches == [] && Possible(s, acts)
    ensures acts == []
  {
  }

  /** No slot is closed, in any run, if and only if no context may end, or there are no slots, or no
      workers. */
  lemma NoSlotIsClosedIff(poolSize: nat, workers: nat, mayEnd: bool)
    ensures (forall acts | Possible(Start(poolSize, workers), acts) && (mayEnd || ContextsEnded(acts) == 0) ::
               After(Start(poolSize, workers), acts).closed == [])
            <==> !mayEnd || poolSize == 0 || workers == 0
  {
    var s := Start(poolSize, workers);
    StartIsSound(poolSize, workers);
    if mayEnd && poolSize != 0 && workers != 0 {
      var acts, t := CloseSlots(s, 1);
      assert After(s, acts).closed != [];
    } else {
      forall acts | Possible(s, acts) && (mayEnd || ContextsEnded(acts) == 0)
        ensures After(s, acts).closed == []
      {
        ReachableIsSound(poolSize, workers, acts);
        EveryClosedSlotHadADoneContext(poolSize, workers, acts);
        if workers == 0 { NobodyActs(s, acts); }
      }
    }
  }

  /** Workers `k`, `k + 1`, ... get the remaining slots; the next one finds none. */
  lemma {:induction false} GetTheRest(s: System, k: nat) returns (acts: seq<Step>, t: System, w: nat)
    requires Sound(s) && |s.idle| + k < |s.fetches|
    requires forall v | k <= v < |s.fetches| :: s.fetches[v] == AtRest
    ensures Leads(s, acts, t) && t.idle == [] && t.closed == s.closed
    ensures w < |t.fetches| && t.fetches[w].phase == Waiting
    decreases |s.idle|
  {
    StepKeepsSound(s, Begin(k));
    var s1 := Do(s, Begin(k));
    if s.idle == [] {
      t, w := s1, k;
      assert Leads(t, [], t);
      Then(s, Begin(k), [], t);
      acts := [Begin(k)] + [];
    } else {
      StepKeepsSound(s1, Get(k));
      acts, t, w := GetTheRest(Do(s1, Get(k)), k + 1);
      Then(s1, Get(k), acts, t);
      Then(s, Begin(k), [Get(k)] + acts, t);
      acts := [Begin(k)] + ([Get(k)] + acts);
    }
  }

  /** In every run, with `d` slots closed, every worker that waits finds a slot. */
  ghost predicate Guaranteed(poolSize: nat, workers: nat, d: nat)
  {
    forall acts, w: nat |
      && Possible(Start(poolSize, workers), acts)
      && |After(Start(poolSize, workers), acts).closed| == d
      && w < |After(Start(poolSize, workers), acts).fetches|
      && After(Start(poolSize, workers), acts).fetches[w].phase == Waiting ::
      Enabled(After(Start(poolSize, workers), acts), Get(w))
  }

  /** For every pool, the guarantee holds if and only if the slots not closed are enough for all workers. */
  lemma GuaranteedIff(poolSize: nat, workers: nat, d: nat)
    requires d <= poolSize
    ensures Guaranteed(poolSize, workers, d) <==> d + workers <= poolSize
  {
    if d + workers <= poolSize {
      forall acts, w: nat |
        && Possible(Start(poolSize, workers), acts)
        && |After(Start(poolSize, workers), acts).closed| == d
        && w < |After(Start(poolSize, workers), acts).fetches|
        && After(Start(poolSize, workers), acts).fetches[w].phase == Waiting
        ensures Enabled(After(Start(poolSize, workers), acts), Get(w))
      {
        GetFindsASlot(poolSize, workers, acts, w);
      }
    } else {
      var s := Start(poolSize, workers);
      StartIsSound(poolSize, workers);
      var acts, t := CloseSlots(s, d);
      var more, u, w := GetTheRest(t, 0);
      Append(s, acts, t, more, u);
      assert !Enabled(After(s, acts + more), Get(w));
    }
  }
}
