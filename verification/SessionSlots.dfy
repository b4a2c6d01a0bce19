/**
 A session slot: a browser runtime made on first use, and the recovery of its primary page. The runtime
 is seen through its interface only: `answer(k)` is how its k-th call turns out.
 */
module SessionSlots {

  datatype Page = Nil | Page(id: int, closed: bool)

  datatype Call =
    | PrimaryPage
    | RecreatePage
    | RecreateContext
    | RecreateBrowser
    | CloseExtraPages
    | CloseBrowser
    | RecycleIfNeeded

  datatype Answer = Answer(fails: bool, id: int, closed: bool)

  class SlotRuntime {
    const answer: nat -> Answer
    var calls: seq<Call>

    constructor (answer: nat -> Answer)
      ensures this.answer == answer && calls == []
    {
      this.answer := answer;
      calls := [];
    }

    /** The answer to the next call. */
    ghost function Next(): Answer
      reads this
    {
      answer(|calls|)
    }

    method Primary() returns (p: Page, failed: bool)
      modifies this
      ensures calls == old(calls) + [PrimaryPage]
      ensures failed == old(Next()).fails
      ensures p == if failed then Nil else Page(old(Next()).id, old(Next()).closed)
    {
      var a := answer(|calls|);
      calls := calls + [PrimaryPage];
      return if a.fails then Nil else Page(a.id, a.closed), a.fails;
    }

    /** Any of the operations that only report success or failure. */
    method Perform(c: Call) returns (failed: bool)
      modifies this
      ensures calls == old(calls) + [c] && failed == old(Next()).fails
    {
      failed := answer(|calls|).fails;
      calls := calls + [c];
    }
  }

  /** What the factory does when asked for the k-th time. */
  datatype Creation = CreateFails | Creates(answer: nat -> Answer)

  /** The k-th answer is a usable primary page. */
  predicate Usable(answer: nat -> Answer, k: nat)
  {
    !answer(k).fails && !answer(k).closed
  }

  /** How far recovery has to go after the unusable answer `k`. */
  datatype Rung = NoRecovery | PageRecovered | ContextRecovered | BrowserRebuilt | AllFailed

  function RungReached(answer: nat -> Answer, k: nat): Rung
  {
    if Usable(answer, k) then NoRecovery
    else if !answer(k + 1).fails then PageRecovered
    else if !answer(k + 2).fails then ContextRecovered
    else if !answer(k + 3).fails then BrowserRebuilt
    else AllFailed
  }

  /** The calls each outcome takes: the cheapest recovery first, the next only after it failed. */
  function CallsOf(r: Rung): seq<Call>
  {
    match r
    case NoRecovery => [PrimaryPage]
    case PageRecovered => [PrimaryPage, RecreatePage, PrimaryPage]
    case ContextRecovered => [PrimaryPage, RecreatePage, RecreateContext, PrimaryPage]
    case BrowserRebuilt => [PrimaryPage, RecreatePage, RecreateContext, RecreateBrowser]
    case AllFailed => [PrimaryPage, RecreatePage, RecreateContext, RecreateBrowser]
  }

  /** Recovery only ever follows failure, cheapest first: nothing is recreated while the first page is
      usable, a context only right after recreating the page failed, a browser only right after recreating
      the context failed. The calls are answered from answer `k` on. */
  predicate FollowsFailure(answer: nat -> Answer, k: nat, calls: seq<Call>)
  {
    forall i: nat | i < |calls| ::
      && (calls[i] == RecreatePage ==> i == 1 && (answer(k).fails || answer(k).closed))
      && (calls[i] == RecreateContext ==> i > 0 && calls[i - 1] == RecreatePage && answer(k + i - 1).fails)
      && (calls[i] == RecreateBrowser ==> i > 0 && calls[i - 1] == RecreateContext && answer(k + i - 1).fails)
  }

  /** What `acquirePage` calls and returns. */
  datatype Acquisition = Acquisition(calls: seq<Call>, page: Page, failed: bool)

  /** The recovery ladder, with the calls answered from answer `k` on. The page is nil while no error is
      reported exactly when the browser has been rebuilt: that outcome is returned as if it were an error. */
  function Ladder(answer: nat -> Answer, k: nat): (r: Acquisition)
    ensures FollowsFailure(answer, k, r.calls)
    ensures r.calls == [PrimaryPage] <==> !answer(k).fails && !answer(k).closed
    ensures r.page == Nil && !r.failed
            <==> (answer(k).fails || answer(k).closed) && answer(k + 1).fails && answer(k + 2).fails
                 && !answer(k + 3).fails
  {
    var rung := RungReached(answer, k);
    var last := answer(k + |CallsOf(rung)| - 1);
    Acquisition(CallsOf(rung),
                if rung == BrowserRebuilt || last.fails then Nil else Page(last.id, last.closed),
                last.fails)
  }

  /** The ladder, one call after the other: the first page if it is open, else the first of page, context
      and browser that can be recreated, and after a page or a context the primary page as it then is. */
  lemma LadderStepByStep(before: seq<Call>, answer: nat -> Answer)
    ensures var k := |before|;
            var r := Ladder(answer, k);
            var tried := before + [PrimaryPage] + [RecreatePage];
            if !answer(k).fails && !answer(k).closed then
              before + r.calls == before + [PrimaryPage] && r.page == Page(answer(k).id, false) && !r.failed
            else if !answer(k + 1).fails then
              before + r.calls == tried + [PrimaryPage] && Answered(r, answer(k + 2))
            else if !answer(k + 2).fails then
              before + r.calls == tried + [RecreateContext] + [PrimaryPage] && Answered(r, answer(k + 3))
            else
              && before + r.calls == tried + [RecreateContext] + [RecreateBrowser]
              && r.page == Nil && r.failed == answer(k + 3).fails
  {
  }

  /** The acquisition ends with the page of this answer, or with its failure. */
  predicate Answered(r: Acquisition, a: Answer)
  {
    if r.failed then a.fails && r.page == Nil else !a.fails && r.page == Page(a.id, a.closed)
  }

  class SessionSlot {
    const create: nat -> Creation
    var runtime: SlotRuntime?
    var attempts: nat

    constructor (create: nat -> Creation)
      ensures this.create == create && runtime == null && attempts == 0
    {
      this.create := create;
      runtime, attempts := null, 0;
    }

    /** The factory is asked only while there is no runtime, and a runtime once made stays. */
    method EnsureReady() returns (failed: bool)
      modifies this
      ensures old(runtime) != null ==> !failed && runtime == old(runtime) && attempts == old(attempts)
      ensures old(runtime) == null ==> attempts == old(attempts) + 1 && failed == create(old(attempts)).CreateFails?
      ensures failed <==> runtime == null
      ensures old(runtime) == null && runtime != null ==>
                fresh(runtime) && runtime.calls == [] && runtime.answer == create(old(attempts)).answer
    {
      if runtime != null { return false; }
      var c := create(attempts);
      attempts := attempts + 1;
      match c {
        case CreateFails => return true;
        case Creates(answer) =>
          runtime := new SlotRuntime(answer);
          return false;
      }
    }

    /** Climbs the ladder, on the runtime there is or on a new one. */
    method AcquirePage() returns (page: Page, failed: bool)
      modifies this, runtime
      ensures runtime == null ==> failed && page == Nil && old(runtime) == null
      ensures old(runtime) != null ==> runtime == old(runtime)
      ensures old(runtime) == null && runtime != null ==> fresh(runtime)
      ensures runtime != null ==>
                var before := if old(runtime) == null then [] else old(runtime.calls);
                var ladder := Ladder(runtime.answer, |before|);
                runtime.calls == before + ladder.calls && page == ladder.page && failed == ladder.failed
      ensures runtime != null ==>
                var before := if old(runtime) == null then [] else old(runtime.calls);
                var first := runtime.answer(|before|);
                !first.fails && !first.closed ==>
                  runtime.calls == before + [PrimaryPage] && page == Page(first.id, false) && !failed
    {
      failed := EnsureReady();
      if failed { return Nil, true; }
      LadderStepByStep(runtime.calls, runtime.answer);
      var p, err := runtime.Primary();
      if !err && !p.closed { return p, false; }
      err := runtime.Perform(RecreatePage);
      if err {
        err := runtime.Perform(RecreateContext);
        if err {
          err := runtime.Perform(RecreateBrowser);
          return Nil, err;
        }
      }
      page, failed := runtime.Primary();
    }

    /** Extra pages are closed first; recycling is tried only when that worked. */
    method Release() returns (failed: bool)
      requires runtime != null
      modifies runtime
      ensures runtime.calls == old(runtime.calls) + [CloseExtraPages]
                               + if old(runtime.Next()).fails then [] else [RecycleIfNeeded]
      ensures failed <==> old(runtime.Next()).fails || old(runtime.answer(|runtime.calls| + 1)).fails
    {
      failed := runtime.Perform(CloseExtraPages);
      if !failed { failed := runtime.Perform(RecycleIfNeeded); }
    }

    /** A slot that was never used has nothing to close. */
    method Close() returns (failed: bool)
      modifies runtime
      ensures runtime == null ==> !failed
      ensures runtime != null ==> runtime.calls == old(runtime.calls) + [CloseBrowser]
                                  && failed == old(runtime.Next()).fails
    {
      if runtime == null { return false; }
      failed := runtime.Perform(CloseBrowser);
    }
  }
}
