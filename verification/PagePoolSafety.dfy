/**
 Fetches that share the page-slot pool, step by step. Receiving a token and counting the lease are two
 steps of `acquire`, and uncounting it and sending the token back are two steps of `release`; any other
 fetch may act in between.
 */
module PagePoolSafety {
  import opened Bags
  import opened Division
  import opened PagePool

  /** A lease's page: none opened (yet), open, closed in time, or its close abandoned after a timeout. */
  datatype Page = NoPage | Open | Closed | Abandoned

  /** Where a fetch stands. `Waiting` is about to acquire; `Taken` has a token but no counted lease yet;
      `Returning` has uncounted its lease, and knows whether the slot was closed, but has not given the
      token back. */
  datatype Phase =
    | Idle
    | Waiting
    | Taken(slot: nat)
    | Leased(slot: nat, page: Page)
    | Returning(slot: nat, sawClosed: bool)

  /** A fetch, and whether its context, the job's own if the job has a timeout, is done. */
  datatype Fetch = Fetch(phase: Phase, done: bool)

  const AtRest := Fetch(Idle, false)

  /** The pool, the fetches, and per slot the pages open in its browser and the page closes that have
      timed out but still run in the background. */
  datatype System = System(pool: Pool, fetches: seq<Fetch>, open: seq<int>, hanging: seq<nat>)

  datatype Step =
    | Begin(w: nat)
    | ContextEnds(w: nat)
    | GiveUp(w: nat)
    | Receive(w: nat)
    | Count(w: nat)
    | OpenPage(w: nat)
    | ClosePage(w: nat)
    | AbandonPage(w: nat)
    | Uncount(w: nat)
    | SendBack(w: nat)
    | LoseToken(w: nat)
    | HangingCloseEnds(j: nat)
    | ShutSlot(j: nat)

  /** `workers` workers, none of them fetching, share a new pool. */
  function Start(browsers: nat, max: nat, workers: nat): System
  {
    System(FullPool(browsers, max), seq(workers, _ => AtRest), seq(browsers, _ => 0), seq(browsers, _ => 0))
  }

  /** The fetch's own steps. Where the context is one case of a select it is never the only one that may be
      taken: a fetch under a done context can still receive a token, or send one back. A token is lost only
      if the slot was seen closed or the context is done. Closing the page, or giving up on the close,
      comes before the release. */
  predicate FetchEnabled(p: Pool, f: Fetch, a: Step)
  {
    match a
    case Begin(_) => f.phase.Idle?
    case ContextEnds(_) => !f.phase.Idle? && !f.done
    case GiveUp(_) => f.phase.Waiting? && f.done
    case Receive(_) => f.phase.Waiting? && p.available != []
    case Count(_) => f.phase.Taken?
    case OpenPage(_) => f.phase.Leased? && f.phase.page == NoPage
    case ClosePage(_) => f.phase.Leased? && f.phase.page == Open
    case AbandonPage(_) => f.phase.Leased? && f.phase.page == Open
    case Uncount(_) => f.phase.Leased? && f.phase.page != Open
    case SendBack(_) => f.phase.Returning? && !f.phase.sawClosed
    case LoseToken(_) => f.phase.Returning? && (f.phase.sawClosed || f.done)
    case _ => false
  }

  predicate ByFetch(a: Step) { !a.HangingCloseEnds? && !a.ShutSlot? }

  predicate Enabled(s: System, a: Step)
  {
    match a
    case HangingCloseEnds(j) => j < |s.hanging| && s.hanging[j] > 0
    case ShutSlot(j) => j < |s.pool.slots|
    case _ => a.w < |s.fetches| && FetchEnabled(s.pool, s.fetches[a.w], a)
  }

  function FetchGoesTo(p: Pool, f: Fetch, a: Step): Fetch
    requires FetchEnabled(p, f, a)
    requires f.phase.Leased? ==> f.phase.slot < |p.slots|
  {
    match a
    case Begin(_) => Fetch(Waiting, false)
    case ContextEnds(_) => f.(done := true)
    case GiveUp(_) => AtRest
    case Receive(_) => f.(phase := Taken(p.available[0]))
    case Count(_) => f.(phase := Leased(f.phase.slot, NoPage))
    case OpenPage(_) => f.(phase := f.phase.(page := Open))
    case ClosePage(_) => f.(phase := f.phase.(page := Closed))
    case AbandonPage(_) => f.(phase := f.phase.(page := Abandoned))
    case Uncount(_) => f.(phase := Returning(f.phase.slot, p.slots[f.phase.slot].closed))
    case SendBack(_) => AtRest
    case LoseToken(_) => AtRest
  }

  /** The fetch has a token. */
  predicate Holding(f: Fetch) { !f.phase.Idle? && !f.phase.Waiting? }

  function PoolAfter(p: Pool, f: Fetch, a: Step): Pool
    requires FetchEnabled(p, f, a)
    requires Holding(f) ==> f.phase.slot < |p.slots| && f.phase.slot < |p.dropped|
  {
    match a
    case Receive(_) => Take(p)
    case Count(_) => CountUp(p, f.phase.slot)
    case Uncount(_) => CountDown(p, f.phase.slot)
    case SendBack(_) => GiveBack(p, f.phase.slot)
    case LoseToken(_) => Drop(p, f.phase.slot)
    case _ => p
  }

  function OpenAfter(open: seq<int>, f: Fetch, a: Step): seq<int>
  {
    if !f.phase.Leased? || f.phase.slot >= |open| then open
    else if a.OpenPage? then open[f.phase.slot := open[f.phase.slot] + 1]
    else if a.ClosePage? then open[f.phase.slot := open[f.phase.slot] - 1]
    else open
  }

  function HangingAfter(hanging: seq<nat>, f: Fetch, a: Step): seq<nat>
  {
    if a.AbandonPage? && f.phase.Leased? && f.phase.slot < |hanging|
    then hanging[f.phase.slot := hanging[f.phase.slot] + 1]
    else hanging
  }

  /** The slots that the fetches and the tokens name are slots of the pool. */
  predicate WellFormed(s: System)
  {
    && |s.pool.dropped| == |s.pool.slots| == |s.hanging| == |s.open|
    && (forall j | j in s.pool.available :: j < |s.pool.slots|)
    && (forall w | 0 <= w < |s.fetches| :: Holding(s.fetches[w]) ==> s.fetches[w].phase.slot < |s.pool.slots|)
  }

  function Do(s: System, a: Step): System
    requires WellFormed(s) && Enabled(s, a)
  {
    match a
    case HangingCloseEnds(j) =>
      s.(hanging := s.hanging[j := s.hanging[j] - 1], open := s.open[j := s.open[j] - 1])
    case ShutSlot(j) => s.(pool := CloseSlot(s.pool, j))
    case _ =>
      var f := s.fetches[a.w];
      System(PoolAfter(s.pool, f, a), s.fetches[a.w := FetchGoesTo(s.pool, f, a)],
             OpenAfter(s.open, f, a), HangingAfter(s.hanging, f, a))
  }

  // What the fetches hold of slot `j`'s tokens.

  function HoldsToken(j: nat): Fetch -> nat
  {
    (f: Fetch) => if Holding(f) && f.phase.slot == j then 1 else 0
  }

  function HoldsLease(j: nat): Fetch -> nat
  {
    (f: Fetch) => if f.phase.Leased? && f.phase.slot == j then 1 else 0
  }

  function HoldsPage(j: nat): Fetch -> nat
  {
    (f: Fetch) => if f.phase.Leased? && f.phase.page == Open && f.phase.slot == j then 1 else 0
  }

  function Busy(f: Fetch): nat { if Holding(f) then 1 else 0 }

  /** How many tokens have been dropped. */
  function Dropped(s: System): nat { Total(s.pool.dropped, Itself) }

  /** Every token of slot `j` is in the channel, with a fetch, or dropped; `active` counts the leases; and
      the open pages are those in use and those that hang. */
  predicate SlotConserved(s: System, j: nat)
  {
    && j < |s.pool.slots| && j < |s.pool.dropped| && j < |s.open| && j < |s.hanging|
    && s.open[j] == Total(s.fetches, HoldsPage(j)) + s.hanging[j]
    && multiset(s.pool.available)[j] + Total(s.fetches, HoldsToken(j)) + s.pool.dropped[j] == s.pool.max
    && s.pool.slots[j].active == Total(s.fetches, HoldsLease(j))
  }

  ghost predicate Conserved(s: System)
  {
    && WellFormed(s)
    && (forall j: nat | j < |s.pool.slots| :: SlotConserved(s, j))
    && |s.pool.available| + Total(s.fetches, Busy) + Dropped(s) == s.pool.Capacity()
  }

  lemma StartIsConserved(browsers: nat, max: nat, workers: nat)
    ensures Conserved(Start(browsers, max, workers))
  {
    var s := Start(browsers, max, workers);
    forall j: nat | j < browsers ensures SlotConserved(s, j) {
      TotalNothing(s.fetches, HoldsToken(j));
      TotalNothing(s.fetches, HoldsLease(j));
      TotalNothing(s.fetches, HoldsPage(j));
    }
    forall j | j in s.pool.available ensures j < browsers { assert multiset(s.pool.available)[j] > 0; }
    TotalNothing(s.fetches, Busy);
    TotalNothing(s.pool.dropped, Itself);
  }

  lemma StepKeepsWellFormed(s: System, a: Step)
    requires WellFormed(s) && Enabled(s, a)
    ensures WellFormed(Do(s, a))
  {
    if a.Receive? {
      assert s.pool.available[0] in s.pool.available;
      forall j | j in s.pool.available[1..] ensures j in s.pool.available {}
    }
  }

  lemma StepConservesTokens(s: System, a: Step, j: nat)
    requires WellFormed(s) && Enabled(s, a) && j < |s.pool.slots|
    ensures var s' := Do(s, a);
            && |s'.pool.dropped| == |s.pool.dropped| && s'.pool.max == s.pool.max
            && multiset(s'.pool.available)[j] + Total(s'.fetches, HoldsToken(j)) + s'.pool.dropped[j]
               == multiset(s.pool.available)[j] + Total(s.fetches, HoldsToken(j)) + s.pool.dropped[j]
  {
    if ByFetch(a) {
      TotalUpdate(s.fetches, HoldsToken(j), a.w, FetchGoesTo(s.pool, s.fetches[a.w], a));
      if a.Receive? { TakeOut(s.pool.available, j); }
    }
  }

  lemma StepConservesLeases(s: System, a: Step, j: nat)
    requires WellFormed(s) && Enabled(s, a) && j < |s.pool.slots|
    ensures var s' := Do(s, a);
            && |s'.pool.slots| == |s.pool.slots|
            && s'.pool.slots[j].active - Total(s'.fetches, HoldsLease(j))
               == s.pool.slots[j].active - Total(s.fetches, HoldsLease(j))
  {
    if ByFetch(a) { TotalUpdate(s.fetches, HoldsLease(j), a.w, FetchGoesTo(s.pool, s.fetches[a.w], a)); }
  }

  lemma StepConservesPages(s: System, a: Step, j: nat)
    requires WellFormed(s) && Enabled(s, a) && j < |s.pool.slots|
    ensures var s' := Do(s, a);
            && |s'.open| == |s.open| && |s'.hanging| == |s.hanging|
            && s'.open[j] - Total(s'.fetches, HoldsPage(j)) - s'.hanging[j]
               == s.open[j] - Total(s.fetches, HoldsPage(j)) - s.hanging[j]
  {
    if ByFetch(a) { TotalUpdate(s.fetches, HoldsPage(j), a.w, FetchGoesTo(s.pool, s.fetches[a.w], a)); }
  }

  lemma StepConservesSlot(s: System, a: Step, j: nat)
    requires WellFormed(s) && Enabled(s, a) && j < |s.pool.slots| && SlotConserved(s, j)
    ensures SlotConserved(Do(s, a), j)
  {
    StepConservesTokens(s, a, j);
    StepConservesLeases(s, a, j);
    StepConservesPages(s, a, j);
  }

  lemma StepConservesTotal(s: System, a: Step)
    requires Conserved(s) && Enabled(s, a)
    ensures var s' := Do(s, a);
            |s'.pool.available| + Total(s'.fetches, Busy) + Dropped(s') == s'.pool.Capacity()
  {
    if ByFetch(a) {
      TotalUpdate(s.fetches, Busy, a.w, FetchGoesTo(s.pool, s.fetches[a.w], a));
      if a.LoseToken? {
        var j := s.fetches[a.w].phase.slot;
        TotalUpdate(s.pool.dropped, Itself, j, s.pool.dropped[j] + 1);
      }
    }
  }

  lemma StepConserves(s: System, a: Step)
    requires Conserved(s) && Enabled(s, a)
    ensures Conserved(Do(s, a))
  {
    StepKeepsWellFormed(s, a);
    forall j: nat | j < |Do(s, a).pool.slots| ensures SlotConserved(Do(s, a), j) {
      StepConservesSlot(s, a, j);
    }
    StepConservesTotal(s, a);
  }

  predicate Possible(s: System, acts: seq<Step>)
    decreases |acts|
  {
    acts == [] || (WellFormed(s) && Enabled(s, acts[0]) && Possible(Do(s, acts[0]), acts[1..]))
  }

  function After(s: System, acts: seq<Step>): System
    requires Possible(s, acts)
    decreases |acts|
  {
    if acts == [] then s else After(Do(s, acts[0]), acts[1..])
  }

  lemma {:induction false} RunConserves(s: System, acts: seq<Step>)
    requires Conserved(s) && Possible(s, acts)
    ensures var s' := After(s, acts);
            && Conserved(s') && s'.pool.max == s.pool.max
            && |s'.pool.slots| == |s.pool.slots| && |s'.fetches| == |s.fetches|
    decreases |acts|
  {
    if acts != [] {
      StepConserves(s, acts[0]);
      RunConserves(Do(s, acts[0]), acts[1..]);
    }
  }

  lemma ReachableIsConserved(browsers: nat, max: nat, workers: nat, acts: seq<Step>)
    requires Possible(Start(browsers, max, workers), acts)
    ensures var s := After(Start(browsers, max, workers), acts);
            && Conserved(s) && s.pool.max == max && |s.pool.slots| == browsers && |s.fetches| == workers
  {
    StartIsConserved(browsers, max, workers);
    RunConserves(Start(browsers, max, workers), acts);
  }

  lemma {:induction false} TotalMonotone(fetches: seq<Fetch>, less: Fetch -> nat, more: Fetch -> nat)
    requires forall f :: less(f) <= more(f)
    ensures Total(fetches, less) <= Total(fetches, more)
  {
    if fetches != [] {
      assert less(fetches[0]) <= more(fetches[0]);
      TotalMonotone(fetches[1..], less, more);
    }
  }

  /** Over all interleavings: every slot's tokens are in the channel, with a fetch or dropped, `active` is
      the number of its leases and never exceeds the limit, and neither do the open pages of its browser,
      not counting the abandoned closes. */
  lemma TokensAreConserved(browsers: nat, max: nat, workers: nat, acts: seq<Step>, j: nat)
    requires Possible(Start(browsers, max, workers), acts) && j < browsers
    ensures var s := After(Start(browsers, max, workers), acts);
            && |s.pool.slots| == |s.pool.dropped| == |s.hanging| == |s.open| == browsers
            && multiset(s.pool.available)[j] + Total(s.fetches, HoldsToken(j)) + s.pool.dropped[j] == max
            && s.pool.slots[j].active == Total(s.fetches, HoldsLease(j)) <= max
            && s.hanging[j] <= s.open[j] <= s.pool.slots[j].active + s.hanging[j] <= max + s.hanging[j]
  {
    ReachableIsConserved(browsers, max, workers, acts);
    var s := After(Start(browsers, max, workers), acts);
    assert SlotConserved(s, j);
    TotalMonotone(s.fetches, HoldsPage(j), HoldsLease(j));
    TotalMonotone(s.fetches, HoldsLease(j), HoldsToken(j));
  }

  /** The channel never overflows, and a release that is about to send always finds room. */
  lemma SendNeverBlocks(browsers: nat, max: nat, workers: nat, acts: seq<Step>, w: nat)
    requires Possible(Start(browsers, max, workers), acts)
    ensures var s := After(Start(browsers, max, workers), acts);
            && |s.pool.available| <= browsers * max
            && (w < |s.fetches| && s.fetches[w].phase.Returning? ==> |s.pool.available| < browsers * max)
  {
    ReachableIsConserved(browsers, max, workers, acts);
    TokensIsProduct(browsers, max);
    var s := After(Start(browsers, max, workers), acts);
    if w < |s.fetches| { TotalAtLeast(s.fetches, Busy, w); }
  }

  /** `derivedBrowserPoolSize` of the configuration. */
  function DerivedPoolSize(browserPoolSize: int, maxPages: int, concurrency: int): (r: int)
    requires concurrency >= 1
    ensures r >= 1
  {
    if browserPoolSize > 0 then browserPoolSize
    else
      var m := if maxPages <= 0 then 1 else maxPages;
      (concurrency + m - 1) / m
  }

  /** A configured size is taken. Otherwise the derived size is the least number of browsers with a page for
      every worker, where a limit of no pages or less counts as one page. */
  lemma DerivedSizeIsLeast(configured: int, maxPages: int, concurrency: nat, browsers: nat)
    requires concurrency >= 1
    ensures configured > 0 ==> DerivedPoolSize(configured, maxPages, concurrency) == configured
    ensures configured <= 0 ==>
              (browsers * (if maxPages <= 0 then 1 else maxPages) >= concurrency
               <==> browsers >= DerivedPoolSize(configured, maxPages, concurrency))
  {
    var max := if maxPages <= 0 then 1 else maxPages;
    var q := (concurrency + max - 1) / max;
    assert q * max + (concurrency + max - 1) % max == concurrency + max - 1;
    if browsers < q { ProductsApart(browsers, q, max); }
    if q < browsers { ProductsApart(q, browsers, max); }
  }

  lemma {:induction false} NotAllBusy(fetches: seq<Fetch>, w: nat)
    requires w < |fetches| && !Holding(fetches[w])
    ensures Total(fetches, Busy) < |fetches|
  {
    if w == 0 {
      TotalBound(fetches[1..], Busy);
    } else {
      NotAllBusy(fetches[1..], w - 1);
    }
  }

  /** As long as the tokens that have not been dropped are enough for all workers, one that is about to
      acquire finds a token. */
  lemma AcquireFindsAToken(browsers: nat, max: nat, workers: nat, acts: seq<Step>, w: nat)
    requires Possible(Start(browsers, max, workers), acts)
    ensures var s := After(Start(browsers, max, workers), acts);
            w < |s.fetches| && s.fetches[w].phase == Waiting && Dropped(s) + workers <= browsers * max
            ==> Enabled(s, Receive(w))
  {
    ReachableIsConserved(browsers, max, workers, acts);
    var s := After(Start(browsers, max, workers), acts);
    TokensIsProduct(browsers, max);
    if w < |s.fetches| && s.fetches[w].phase == Waiting { NotAllBusy(s.fetches, w); }
  }

  /** A pool of derived size has enough tokens until one has been dropped. */
  lemma DerivedSizeSuffices(max: nat, workers: nat, acts: seq<Step>, w: nat)
    requires max >= 1 && workers >= 1
    requires Possible(Start(DerivedPoolSize(0, max, workers), max, workers), acts)
    ensures var s := After(Start(DerivedPoolSize(0, max, workers), max, workers), acts);
            w < |s.fetches| && s.fetches[w].phase == Waiting && Dropped(s) == 0 ==> Enabled(s, Receive(w))
  {
    var browsers := DerivedPoolSize(0, max, workers);
    DerivedSizeIsLeast(0, max, workers, browsers);
    AcquireFindsAToken(browsers, max, workers, acts, w);
  }

  // A closed slot.

  function MayComeBack(j: nat): Fetch -> nat
  {
    (f: Fetch) => if f.phase.Returning? && f.phase.slot == j && !f.phase.sawClosed then 1 else 0
  }

  /** Slot `j`'s tokens that are in the channel or may be sent on it again. */
  function InCirculation(s: System, j: nat): nat
  {
    multiset(s.pool.available)[j] + Total(s.fetches, MayComeBack(j))
  }

  /** How often a run acquires a page of slot `j`. */
  function Acquisitions(s: System, acts: seq<Step>, j: nat): nat
    requires Possible(s, acts)
    decreases |acts|
  {
    if acts == [] then 0
    else (if acts[0].Receive? && s.pool.available[0] == j then 1 else 0) + Acquisitions(Do(s, acts[0]), acts[1..], j)
  }

  lemma ClosedStepTakesOut(s: System, a: Step, j: nat)
    requires WellFormed(s) && Enabled(s, a) && j < |s.pool.slots| && s.pool.slots[j].closed
    ensures j < |Do(s, a).pool.slots| && Do(s, a).pool.slots[j].closed
    ensures InCirculation(Do(s, a), j) + (if a.Receive? && s.pool.available[0] == j then 1 else 0)
            <= InCirculation(s, j)
  {
    if ByFetch(a) {
      TotalUpdate(s.fetches, MayComeBack(j), a.w, FetchGoesTo(s.pool, s.fetches[a.w], a));
      if a.Receive? { TakeOut(s.pool.available, j); }
    }
  }

  lemma {:induction false} ClosedRunTakesOut(s: System, acts: seq<Step>, j: nat)
    requires WellFormed(s) && Possible(s, acts) && j < |s.pool.slots| && s.pool.slots[j].closed
    ensures InCirculation(After(s, acts), j) + Acquisitions(s, acts, j) <= InCirculation(s, j)
    decreases |acts|
  {
    if acts != [] {
      StepKeepsWellFormed(s, acts[0]);
      ClosedStepTakesOut(s, acts[0], j);
      ClosedRunTakesOut(Do(s, acts[0]), acts[1..], j);
    }
  }

  /** `acquire` does not ask whether a slot is closed, but no lease that sees it closed returns its token:
      from any state reached, a closed slot is acquired at most `max` times more. */
  lemma ClosedSlotRunsDry(browsers: nat, max: nat, workers: nat, acts: seq<Step>, more: seq<Step>, j: nat)
    requires Possible(Start(browsers, max, workers), acts)
    requires Possible(After(Start(browsers, max, workers), acts), more)
    requires var s := After(Start(browsers, max, workers), acts); j < |s.pool.slots| && s.pool.slots[j].closed
    ensures Acquisitions(After(Start(browsers, max, workers), acts), more, j) <= max
  {
    ReachableIsConserved(browsers, max, workers, acts);
    var s := After(Start(browsers, max, workers), acts);
    assert SlotConserved(s, j);
    TotalMonotone(s.fetches, MayComeBack(j), HoldsToken(j));
    ClosedRunTakesOut(s, more, j);
  }

  // How tokens get lost.

  /** How many contexts end in a run. */
  function ContextsEnded(acts: seq<Step>): nat
  {
    if acts == [] then 0 else (if acts[0].ContextEnds? then 1 else 0) + ContextsEnded(acts[1..])
  }

  /** How many fetches give up without a lease. */
  function GivenUp(acts: seq<Step>): nat
  {
    if acts == [] then 0 else (if acts[0].GiveUp? then 1 else 0) + GivenUp(acts[1..])
  }

  predicate ReleasesOnClosed(s: System, a: Step)
    requires WellFormed(s) && Enabled(s, a)
  {
    a.Uncount? && s.pool.slots[s.fetches[a.w].phase.slot].closed
  }

  /** How many releases in a run see their slot closed. */
  function ClosedReleases(s: System, acts: seq<Step>): nat
    requires Possible(s, acts)
    decreases |acts|
  {
    if acts == [] then 0
    else (if ReleasesOnClosed(s, acts[0]) then 1 else 0) + ClosedReleases(Do(s, acts[0]), acts[1..])
  }

  /** The reasons a fetch has, or will have, to lose its token. */
  function Reasons(f: Fetch): nat
  {
    (if f.done then 1 else 0) + if f.phase.Returning? && f.phase.sawClosed then 1 else 0
  }

  lemma StepNeedsReason(s: System, a: Step)
    requires WellFormed(s) && Enabled(s, a)
    ensures var s' := Do(s, a);
            Dropped(s') + Total(s'.fetches, Reasons) + (if a.GiveUp? then 1 else 0)
            <= Dropped(s) + Total(s.fetches, Reasons) + (if a.ContextEnds? then 1 else 0)
               + if ReleasesOnClosed(s, a) then 1 else 0
  {
    if ByFetch(a) {
      TotalUpdate(s.fetches, Reasons, a.w, FetchGoesTo(s.pool, s.fetches[a.w], a));
      if a.LoseToken? {
        var j := s.fetches[a.w].phase.slot;
        TotalUpdate(s.pool.dropped, Itself, j, s.pool.dropped[j] + 1);
      }
    }
  }

  lemma {:induction false} RunNeedsReasons(s: System, acts: seq<Step>)
    requires WellFormed(s) && Possible(s, acts)
    ensures var s' := After(s, acts);
            Dropped(s') + Total(s'.fetches, Reasons) + GivenUp(acts)
            <= Dropped(s) + Total(s.fetches, Reasons) + ContextsEnded(acts) + ClosedReleases(s, acts)
    decreases |acts|
  {
    if acts != [] {
      StepNeedsReason(s, acts[0]);
      StepKeepsWellFormed(s, acts[0]);
      RunNeedsReasons(Do(s, acts[0]), acts[1..]);
    }
  }

  /** In every run the dropped tokens and the fetches that gave up without a lease are at most the contexts
      that ended and the releases that saw their slot closed, taken together. */
  lemma EveryLossHasAReason(browsers: nat, max: nat, workers: nat, acts: seq<Step>)
    requires Possible(Start(browsers, max, workers), acts)
    ensures Dropped(After(Start(browsers, max, workers), acts)) + GivenUp(acts)
            <= ContextsEnded(acts) + ClosedReleases(Start(browsers, max, workers), acts)
  {
    var s := Start(browsers, max, workers);
    StartIsConserved(browsers, max, workers);
    TotalNothing(s.fetches, Reasons);
    TotalNothing(s.pool.dropped, Itself);
    RunNeedsReasons(s, acts);
  }

  /** The run closes slots, and lets contexts end, only if it may. */
  predicate Obeys(acts: seq<Step>, mayClose: bool, mayEnd: bool)
  {
    forall a | a in acts :: (a.ShutSlot? ==> mayClose) && (a.ContextEnds? ==> mayEnd)
  }

  lemma {:induction false} NothingClosesByItself(s: System, acts: seq<Step>)
    requires WellFormed(s) && Possible(s, acts) && Obeys(acts, false, false)
    requires forall j | 0 <= j < |s.pool.slots| :: !s.pool.slots[j].closed
    ensures ContextsEnded(acts) == 0 && ClosedReleases(s, acts) == 0
    decreases |acts|
  {
    if acts != [] {
      assert acts[0] in acts;
      StepKeepsWellFormed(s, acts[0]);
      NothingClosesByItself(Do(s, acts[0]), acts[1..]);
    }
  }

  lemma {:induction false} NobodyLosesNothing(s: System, acts: seq<Step>)
    requires WellFormed(s) && Possible(s, acts) && s.fetches == []
    ensures Dropped(After(s, acts)) == Dropped(s)
    decreases |acts|
  {
    if acts != [] {
      StepKeepsWellFormed(s, acts[0]);
      NobodyLosesNothing(Do(s, acts[0]), acts[1..]);
    }
  }

  // The order of the tokens.

  /** The token the step receives, and the one it sends back. */
  function Got(s: System, a: Step): seq<nat>
    requires Enabled(s, a)
  {
    if a.Receive? then [s.pool.available[0]] else []
  }

  function Put(s: System, a: Step): seq<nat>
    requires Enabled(s, a)
  {
    if a.SendBack? then [s.fetches[a.w].phase.slot] else []
  }

  /** The tokens received in a run, in order. */
  function Received(s: System, acts: seq<Step>): seq<nat>
    requires Possible(s, acts)
    decreases |acts|
  {
    if acts == [] then [] else Got(s, acts[0]) + Received(Do(s, acts[0]), acts[1..])
  }

  /** The tokens sent back in a run, in order. */
  function SentBack(s: System, acts: seq<Step>): seq<nat>
    requires Possible(s, acts)
    decreases |acts|
  {
    if acts == [] then [] else Put(s, acts[0]) + SentBack(Do(s, acts[0]), acts[1..])
  }

  lemma StepKeepsOrder(s: System, a: Step)
    requires WellFormed(s) && Enabled(s, a)
    ensures s.pool.available + Put(s, a) == Got(s, a) + Do(s, a).pool.available
  {
  }

  lemma {:induction false} RunKeepsOrder(s: System, acts: seq<Step>)
    requires Possible(s, acts)
    ensures s.pool.available + SentBack(s, acts) == Received(s, acts) + After(s, acts).pool.available
    decreases |acts|
  {
    if acts == [] {
      assert s.pool.available + [] == [] + s.pool.available;
    } else {
      var t, more := Do(s, acts[0]), acts[1..];
      StepKeepsOrder(s, acts[0]);
      RunKeepsOrder(t, more);
      QueueGoesOn(s.pool.available, Put(s, acts[0]), Got(s, acts[0]), t.pool.available,
                  SentBack(t, more), Received(t, more), After(t, more).pool.available);
    }
  }

  /** First in, first out: in every run what was in the channel of the new pool, slot by slot, followed by
      what is sent back, is what is received, followed by what is left. */
  lemma TokensKeepTheirOrder(browsers: nat, max: nat, workers: nat, acts: seq<Step>)
    requires Possible(Start(browsers, max, workers), acts)
    ensures var s := Start(browsers, max, workers);
            && |s.pool.available| == browsers * max
            && (forall i | 0 <= i < browsers * max :: max > 0 && s.pool.available[i] == i / max)
            && s.pool.available + SentBack(s, acts) == Received(s, acts) + After(s, acts).pool.available
  {
    FilledInOrder(browsers, max);
    RunKeepsOrder(Start(browsers, max, workers), acts);
  }

  // Runs, put together.

  ghost predicate Leads(s: System, acts: seq<Step>, t: System)
  {
    Possible(s, acts) && After(s, acts) == t
  }

  lemma Then(s: System, a: Step, acts: seq<Step>, t: System)
    requires WellFormed(s) && Enabled(s, a) && Leads(Do(s, a), acts, t)
    ensures Leads(s, [a] + acts, t)
  {
    assert ([a] + acts)[1..] == acts;
  }

  lemma {:induction false} Append(s: System, acts: seq<Step>, t: System, more: seq<Step>, u: System)
    requires Leads(s, acts, t) && Leads(t, more, u)
    ensures Leads(s, acts + more, u)
    decreases |acts|
  {
    if acts == [] {
      assert acts + more == more;
    } else {
      Append(Do(s, acts[0]), acts[1..], t, more, u);
      Then(s, acts[0], acts[1..] + more, u);
      assert [acts[0]] + (acts[1..] + more) == acts + more;
    }
  }

  /** The way of worker 0 to a counted lease. */
  lemma OneLease(s: System) returns (t: System)
    requires Conserved(s) && |s.fetches| >= 1 && s.fetches[0] == AtRest && s.pool.available != []
    ensures Leads(s, [Begin(0), Receive(0), Count(0)], t) && Conserved(t)
    ensures var j := s.pool.available[0];
            && j < |s.pool.slots|
            && t == s.(fetches := s.fetches[0 := Fetch(Leased(j, NoPage), false)], pool := CountUp(Take(s.pool), j))
  {
    assert s.pool.available[0] in s.pool.available;
    StepConserves(s, Begin(0));
    var s1 := Do(s, Begin(0));
    StepConserves(s1, Receive(0));
    var s2 := Do(s1, Receive(0));
    StepConserves(s2, Count(0));
    t := Do(s2, Count(0));
    assert Leads(t, [], t);
    Then(s2, Count(0), [], t);
    Then(s1, Receive(0), [Count(0)] + [], t);
    Then(s, Begin(0), [Receive(0)] + ([Count(0)] + []), t);
    assert [Begin(0)] + ([Receive(0)] + ([Count(0)] + [])) == [Begin(0), Receive(0), Count(0)];
  }

  /** Worker 0 gives its lease back and loses the token. */
  lemma LostLease(s: System) returns (t: System)
    requires Conserved(s) && |s.fetches| >= 1 && s.fetches[0].phase.Leased? && s.fetches[0].phase.page == NoPage
    requires s.fetches[0].phase.slot < |s.pool.slots|
    requires s.fetches[0].done || s.pool.slots[s.fetches[0].phase.slot].closed
    ensures Leads(s, [Uncount(0), LoseToken(0)], t) && Conserved(t) && Dropped(t) == Dropped(s) + 1
    ensures t.fetches == s.fetches[0 := AtRest] && t.pool.available == s.pool.available
    ensures t.pool.max == s.pool.max && |t.pool.slots| == |s.pool.slots|
  {
    var j := s.fetches[0].phase.slot;
    StepConserves(s, Uncount(0));
    var s1 := Do(s, Uncount(0));
    StepConserves(s1, LoseToken(0));
    t := Do(s1, LoseToken(0));
    TotalUpdate(s.pool.dropped, Itself, j, s.pool.dropped[j] + 1);
    assert Leads(t, [], t);
    Then(s1, LoseToken(0), [], t);
    Then(s, Uncount(0), [LoseToken(0)] + [], t);
    assert [Uncount(0)] + ([LoseToken(0)] + []) == [Uncount(0), LoseToken(0)];
  }

  /** What has to happen between a lease and its release for the token to be lost. */
  function Cause(s: System, byTimeout: bool): Step
    requires s.pool.available != []
  {
    if byTimeout then ContextEnds(0) else ShutSlot(s.pool.available[0])
  }

  /** Worker 0 acquires a lease and loses its token. */
  lemma OneLoss(s: System, byTimeout: bool) returns (acts: seq<Step>, t: System)
    requires Conserved(s) && |s.fetches| >= 1 && s.fetches[0] == AtRest && s.pool.available != []
    ensures acts == [Begin(0), Receive(0), Count(0)] + ([Cause(s, byTimeout)] + [Uncount(0), LoseToken(0)])
    ensures Leads(s, acts, t) && Conserved(t) && Dropped(t) == Dropped(s) + 1
    ensures t.fetches == s.fetches && t.pool.available == s.pool.available[1..]
    ensures t.pool.max == s.pool.max && |t.pool.slots| == |s.pool.slots|
  {
    var a := Cause(s, byTimeout);
    var s1 := OneLease(s);
    StepConserves(s1, a);
    t := LostLease(Do(s1, a));
    Then(s1, a, [Uncount(0), LoseToken(0)], t);
    acts := [Begin(0), Receive(0), Count(0)] + ([a] + [Uncount(0), LoseToken(0)]);
    Append(s, [Begin(0), Receive(0), Count(0)], s1, [a] + [Uncount(0), LoseToken(0)], t);
    assert t.fetches == s.fetches;
  }

  /** No token can be lost, in any run that obeys, if and only if neither slots may be closed nor contexts
      end, or there are no tokens, or no workers. */
  lemma NoTokenIsLostIff(browsers: nat, max: nat, workers: nat, mayClose: bool, mayEnd: bool)
    ensures (forall acts | Possible(Start(browsers, max, workers), acts) && Obeys(acts, mayClose, mayEnd) ::
               Dropped(After(Start(browsers, max, workers), acts)) == 0)
            <==> (!mayClose && !mayEnd) || browsers * max == 0 || workers == 0
  {
    var s := Start(browsers, max, workers);
    StartIsConserved(browsers, max, workers);
    TokensIsProduct(browsers, max);
    TotalNothing(s.pool.dropped, Itself);
    if (mayClose || mayEnd) && browsers * max != 0 && workers != 0 {
      var acts, t := OneLoss(s, mayEnd);
      assert Obeys(acts, mayClose, mayEnd);
    } else {
      forall acts | Possible(s, acts) && Obeys(acts, mayClose, mayEnd) ensures Dropped(After(s, acts)) == 0 {
        if browsers * max == 0 {
          ReachableIsConserved(browsers, max, workers, acts);
        } else if workers == 0 {
          NobodyLosesNothing(s, acts);
        } else {
          NothingClosesByItself(s, acts);
          EveryLossHasAReason(browsers, max, workers, acts);
        }
      }
    }
  }

  // The price of a lost token.

  lemma {:induction false} DroppedStaysDropped(s: System, acts: seq<Step>)
    requires Conserved(s) && Possible(s, acts)
    ensures Dropped(s) <= Dropped(After(s, acts))
    decreases |acts|
  {
    if acts != [] {
      StepConserves(s, acts[0]);
      StepDropsOrNot(s, acts[0]);
      DroppedStaysDropped(Do(s, acts[0]), acts[1..]);
    }
  }

  lemma StepDropsOrNot(s: System, a: Step)
    requires WellFormed(s) && Enabled(s, a)
    ensures Dropped(Do(s, a)) == Dropped(s) + if a.LoseToken? then 1 else 0
  {
    if a.LoseToken? {
      var j := s.fetches[a.w].phase.slot;
      TotalUpdate(s.pool.dropped, Itself, j, s.pool.dropped[j] + 1);
    }
  }

  /** Once every token has been dropped no fetch ever acquires a lease again. */
  lemma DrainedPoolStarves(s: System, acts: seq<Step>, w: nat)
    requires Conserved(s) && Possible(s, acts)
    requires Dropped(s) == s.pool.Capacity()
    ensures After(s, acts).pool.available == [] && !Enabled(After(s, acts), Receive(w))
  {
    DroppedStaysDropped(s, acts);
    RunConserves(s, acts);
  }

  /** Worker 0 loses `d` tokens, one after the other, to the ends of its contexts. */
  lemma {:induction false} LoseTokens(s: System, d: nat) returns (acts: seq<Step>, t: System)
    requires Conserved(s) && |s.fetches| >= 1 && s.fetches[0] == AtRest && d <= |s.pool.available|
    ensures Leads(s, acts, t) && Conserved(t) && Obeys(acts, false, true) && Dropped(t) == Dropped(s) + d
    ensures t.fetches == s.fetches && |t.pool.available| == |s.pool.available| - d
    decreases d
  {
    if d == 0 {
      acts, t := [], s;
    } else {
      var first, s1 := OneLoss(s, true);
      acts, t := LoseTokens(s1, d - 1);
      Append(s, first, s1, acts, t);
      acts := first + acts;
    }
  }

  /** And it can come to that: one worker whose fetches all time out drains any pool. */
  lemma TimeoutsCanDrainThePool(browsers: nat, max: nat, workers: nat)
    requires workers >= 1
    ensures exists acts :: Possible(Start(browsers, max, workers), acts) && Obeys(acts, false, true)
                           && Dropped(After(Start(browsers, max, workers), acts)) == browsers * max
  {
    var s := Start(browsers, max, workers);
    StartIsConserved(browsers, max, workers);
    TokensIsProduct(browsers, max);
    TotalNothing(s.pool.dropped, Itself);
    var acts, t := LoseTokens(s, browsers * max);
  }

  /** Workers `k`, `k + 1`, ... take the remaining tokens; the next one finds none. */
  lemma {:induction false} TakeTheRest(s: System, k: nat) returns (acts: seq<Step>, t: System, w: nat)
    requires Conserved(s) && |s.pool.available| + k < |s.fetches|
    requires forall v | k <= v < |s.fetches| :: s.fetches[v] == AtRest
    ensures Leads(s, acts, t) && t.pool.available == [] && t.pool.dropped == s.pool.dropped
    ensures w < |t.fetches| && t.fetches[w].phase == Waiting
    decreases |s.pool.available|
  {
    StepConserves(s, Begin(k));
    var s1 := Do(s, Begin(k));
    if s.pool.available == [] {
      t, w := s1, k;
      assert Leads(t, [], t);
      Then(s, Begin(k), [], t);
      acts := [Begin(k)] + [];
    } else {
      StepConserves(s1, Receive(k));
      acts, t, w := TakeTheRest(Do(s1, Receive(k)), k + 1);
      Then(s1, Receive(k), acts, t);
      Then(s, Begin(k), [Receive(k)] + acts, t);
      acts := [Begin(k)] + ([Receive(k)] + acts);
    }
  }

  /** In every run, with `d` tokens dropped, every worker that is about to acquire finds a token. */
  ghost predicate Guaranteed(browsers: nat, max: nat, workers: nat, d: nat)
  {
    forall acts, w: nat |
      && Possible(Start(browsers, max, workers), acts)
      && Dropped(After(Start(browsers, max, workers), acts)) == d
      && w < |After(Start(browsers, max, workers), acts).fetches|
      && After(Start(browsers, max, workers), acts).fetches[w].phase == Waiting ::
      Enabled(After(Start(browsers, max, workers), acts), Receive(w))
  }

  /** For every pool, the guarantee holds if and only if the tokens not dropped are enough for all workers. */
  lemma GuaranteedIff(browsers: nat, max: nat, workers: nat, d: nat)
    requires d <= browsers * max
    ensures Guaranteed(browsers, max, workers, d) <==> d + workers <= browsers * max
  {
    if d + workers <= browsers * max {
      forall acts, w: nat |
        && Possible(Start(browsers, max, workers), acts)
        && Dropped(After(Start(browsers, max, workers), acts)) == d
        && w < |After(Start(browsers, max, workers), acts).fetches|
        && After(Start(browsers, max, workers), acts).fetches[w].phase == Waiting
        ensures Enabled(After(Start(browsers, max, workers), acts), Receive(w))
      {
        AcquireFindsAToken(browsers, max, workers, acts, w);
      }
    } else {
      var s := Start(browsers, max, workers);
      StartIsConserved(browsers, max, workers);
      TokensIsProduct(browsers, max);
      TotalNothing(s.pool.dropped, Itself);
      var acts, t := LoseTokens(s, d);
      var more, u, w := TakeTheRest(t, 0);
      Append(s, acts, t, more, u);
      assert !Enabled(After(s, acts + more), Receive(w));
    }
  }
}
