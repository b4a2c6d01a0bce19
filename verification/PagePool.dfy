/**
 The page-slot pool: a bounded channel of tokens, one token per page a browser may have open, with the
 counters each browser slot keeps. A slot is named by its place in the pool's list of slots.
 */
module PagePool {
  import opened Bags
  import Division

  /** `n * max`, the number of tokens of `n` slots, slot by slot. */
  function Tokens(n: nat, max: nat): nat
  {
    if n == 0 then 0 else Tokens(n - 1, max) + max
  }

  lemma {:induction false} TokensIsProduct(n: nat, max: nat)
    ensures Tokens(n, max) == n * max
  {
    if n > 0 { TokensIsProduct(n - 1, max); }
  }

  /** A slot counts its leases; `running` says whether its browser and context have not been closed. */
  datatype Slot = Slot(active: int, closed: bool, running: bool)

  /** The pool's state: the channel from its oldest token on, the slots, and per slot the tokens that a
      release under a done context or on a closed slot did not give back. */
  datatype Pool = Pool(max: nat, available: seq<nat>, slots: seq<Slot>, dropped: seq<nat>)
  {
    function Capacity(): nat { Tokens(|slots|, max) }
  }

  /** `max` tokens for each of the first `n` slots. */
  function Filled(n: nat, max: nat): (r: seq<nat>)
    ensures |r| == Tokens(n, max)
    ensures forall j: nat :: multiset(r)[j] == if j < n then max else 0
  {
    if n == 0 then []
    else
      Filled(n - 1, max) + Repeat(n - 1, max)
  }

  function Repeat(x: nat, k: nat): (r: seq<nat>)
    ensures |r| == k
    ensures forall y: nat :: multiset(r)[y] == if y == x then k else 0
  {
    if k == 0 then [] else Repeat(x, k - 1) + [x]
  }

  function FreshSlots(n: nat): seq<Slot> { seq(n, _ => Slot(0, false, true)) }

  function FullPool(n: nat, max: nat): Pool
  {
    Pool(max, Filled(n, max), FreshSlots(n), seq(n, _ => 0))
  }

  /** The receive of `acquire`. */
  function Take(p: Pool): Pool
    requires p.available != []
  {
    p.(available := p.available[1..])
  }

  function CountUp(p: Pool, j: nat): Pool
    requires j < |p.slots|
  {
    p.(slots := p.slots[j := p.slots[j].(active := p.slots[j].active + 1)])
  }

  function CountDown(p: Pool, j: nat): Pool
    requires j < |p.slots|
  {
    p.(slots := p.slots[j := p.slots[j].(active := p.slots[j].active - 1)])
  }

  /** The send of `release`. */
  function GiveBack(p: Pool, j: nat): Pool
  {
    p.(available := p.available + [j])
  }

  /** A release that returns without its send. */
  function Drop(p: Pool, j: nat): Pool
    requires j < |p.dropped|
  {
    p.(dropped := p.dropped[j := p.dropped[j] + 1])
  }

  function CloseSlot(p: Pool, j: nat): Pool
    requires j < |p.slots|
  {
    p.(slots := p.slots[j := p.slots[j].(closed := true, running := false)])
  }

  function CloseAll(p: Pool): Pool
  {
    p.(slots := seq(|p.slots|, j requires 0 <= j < |p.slots| => p.slots[j].(closed := true, running := false)))
  }

  function Itself(n: nat): nat { n }

  function ActiveCount(s: Slot): nat { if s.active > 0 then s.active else 0 }

  /** Slot `j`'s tokens: in the channel, standing for a counted lease, or dropped. */
  predicate SlotBalanced(p: Pool, j: nat)
  {
    && j < |p.slots| && j < |p.dropped| && p.slots[j].active >= 0
    && multiset(p.available)[j] + p.slots[j].active + p.dropped[j] == p.max
  }

  /** No token of the pool is lost or made up. */
  ghost predicate Balanced(p: Pool)
  {
    && |p.dropped| == |p.slots|
    && (forall j: nat | j < |p.slots| :: SlotBalanced(p, j))
    && (forall j | j in p.available :: j < |p.slots|)
    && |p.available| + Total(p.slots, ActiveCount) + Total(p.dropped, Itself) == p.Capacity()
  }

  lemma FullIsBalanced(n: nat, max: nat)
    ensures Balanced(FullPool(n, max))
  {
    var p := FullPool(n, max);
    TotalNothing(p.slots, ActiveCount);
    TotalNothing(p.dropped, Itself);
    forall j | j in p.available ensures j < n { assert multiset(p.available)[j] > 0; }
  }

  /** What one lease holds: `release` acts on its first call only. */
  class PageLease {
    const slot: nat
    var released: bool

    constructor (slot: nat)
      ensures this.slot == slot && !released
    {
      this.slot := slot;
      released := false;
    }
  }

  datatype Acquired = Lease(lease: PageLease) | ContextDone

  class PageSlotPool {
    const max: nat
    const capacity: nat
    var available: seq<nat>
    var slots: seq<Slot>
    ghost var dropped: seq<nat>

    ghost function Contents(): Pool
      reads this
    {
      Pool(max, available, slots, dropped)
    }

    ghost predicate Valid()
      reads this
    {
      capacity == Tokens(|slots|, max) && Balanced(Contents())
    }

    /** The buffered channel, still empty, and no slots. */
    constructor (poolSize: nat, max: nat)
      ensures this.max == max && capacity == Tokens(poolSize, max)
      ensures Contents() == FullPool(0, max)
    {
      this.max := max;
      capacity := Tokens(poolSize, max);
      available, slots, dropped := [], [], [];
    }

    /** A send on the channel. It blocks when the buffer is full; the precondition is that it does not. */
    method Send(slot: nat)
      requires |available| < capacity
      modifies this`available
      ensures available == old(available) + [slot]
    {
      available := available + [slot];
    }

    /** `acquire` with a token or a done context at hand. When both are, the select takes either, as
        `takesToken` says. */
    method Acquire(done: bool, takesToken: bool) returns (r: Acquired)
      requires Valid() && (done || available != [])
      modifies this
      ensures Valid()
      ensures r.ContextDone? <==> done && (available == old(available) == [] || !takesToken)
      ensures r.ContextDone? ==> Contents() == old(Contents())
      ensures r.Lease? ==> old(available) != [] && fresh(r.lease) && !r.lease.released
                           && r.lease.slot == old(available[0]) && r.lease.slot < old(|slots|) == |slots|
                           && Contents() == CountUp(Take(old(Contents())), r.lease.slot)
                           && available == old(available)[1..] && dropped == old(dropped)
                           && slots == old(slots)[r.lease.slot := slots[r.lease.slot]]
                           && slots[r.lease.slot].active == old(slots)[r.lease.slot].active + 1 > 0
    {
      if done && (available == [] || !takesToken) { return ContextDone; }
      var slot := available[0];
      AcquireBalances(Contents());
      available := available[1..];
      slots := slots[slot := slots[slot].(active := slots[slot].active + 1)];
      var lease := new PageLease(slot);
      r := Lease(lease);
    }

    /** `release`. Only the first call on a lease does anything; its send never blocks. When the
        context is done too, the select takes either case, as `sends` says. */
    method Release(lease: PageLease, done: bool, sends: bool)
      requires Valid() && lease.slot < |slots|
      requires !lease.released ==> slots[lease.slot].active > 0
      modifies this, lease
      ensures Valid() && lease.released
      ensures old(lease.released) ==> Contents() == old(Contents())
      ensures !old(lease.released) ==>
                var back := CountDown(old(Contents()), lease.slot);
                Contents() == if old(slots[lease.slot].closed) || (done && !sends)
                              then Drop(back, lease.slot) else GiveBack(back, lease.slot)
      ensures !old(lease.released) ==>
                && slots == old(slots)[lease.slot := slots[lease.slot]]
                && slots[lease.slot].active == old(slots)[lease.slot].active - 1
                && slots[lease.slot].closed == old(slots)[lease.slot].closed
                && available == if old(slots)[lease.slot].closed || (done && !sends)
                                then old(available) else old(available) + [lease.slot]
    {
      if !lease.released {
        var slot := lease.slot;
        lease.released := true;
        ReleaseBalances(Contents(), slot);
        slots := slots[slot := slots[slot].(active := slots[slot].active - 1)];
        var closed := slots[slot].closed;
        if closed || (done && !sends) {
          dropped := dropped[slot := dropped[slot] + 1];
        } else {
          Send(slot);
        }
      }
    }

    /** `close` marks every slot and closes its context and browser; the tokens in the channel stay there. */
    method Close()
      modifies this`slots
      ensures Contents() == CloseAll(old(Contents()))
      ensures |slots| == |old(slots)| && available == old(available)
      ensures forall k | 0 <= k < |slots| ::
                slots[k].closed && !slots[k].running && slots[k].active == old(slots)[k].active
      ensures old(Valid()) ==> Valid()
    {
      ghost var was := Contents();
      if Balanced(was) { CloseBalances(was); }
      var j := 0;
      while j < |slots|
        invariant j <= |slots| == |old(slots)|
        invariant forall k | 0 <= k < j :: slots[k] == old(slots[k]).(closed := true, running := false)
        invariant forall k | j <= k < |slots| :: slots[k] == old(slots[k])
      {
        slots := slots[j := slots[j].(closed := true, running := false)];
        j := j + 1;
      }
      assert Contents() == CloseAll(was);
    }
  }

  lemma AcquireBalances(p: Pool)
    requires Balanced(p) && p.available != []
    ensures p.available[0] < |p.slots| && Balanced(CountUp(Take(p), p.available[0]))
    ensures p.slots[p.available[0]].active >= 0
  {
    var j := p.available[0];
    assert j in p.available && SlotBalanced(p, j);
    var p' := CountUp(Take(p), j);
    forall k: nat | k < |p'.slots| ensures SlotBalanced(p', k) {
      assert SlotBalanced(p, k);
      TakeOut(p.available, k);
    }
    forall k | k in p'.available ensures k in p.available {}
    TotalUpdate(p.slots, ActiveCount, j, p'.slots[j]);
  }

  /** Closing the slots moves no token. */
  lemma CloseBalances(p: Pool)
    requires Balanced(p)
    ensures Balanced(CloseAll(p))
  {
    forall k: nat | k < |p.slots| ensures SlotBalanced(CloseAll(p), k) { assert SlotBalanced(p, k); }
    TotalPointwise(p.slots, CloseAll(p).slots, ActiveCount);
  }

  /** A lease that counts can give its token back: there is room, and the balance is kept either way. */
  lemma ReleaseBalances(p: Pool, j: nat)
    requires Balanced(p) && j < |p.slots| && p.slots[j].active > 0
    ensures |p.available| < p.Capacity()
    ensures Balanced(GiveBack(CountDown(p, j), j)) && Balanced(Drop(CountDown(p, j), j))
  {
    TotalAtLeast(p.slots, ActiveCount, j);
    GivenBackIsBalanced(p, j);
    DroppedIsBalanced(p, j);
  }

  lemma GivenBackIsBalanced(p: Pool, j: nat)
    requires Balanced(p) && j < |p.slots| && p.slots[j].active > 0
    ensures Balanced(GiveBack(CountDown(p, j), j))
  {
    var p' := GiveBack(CountDown(p, j), j);
    forall k: nat | k < |p'.slots| ensures SlotBalanced(p', k) {
      assert SlotBalanced(p, k);
      PutIn(p.available, j, k);
    }
    TotalUpdate(p.slots, ActiveCount, j, p'.slots[j]);
  }

  lemma DroppedIsBalanced(p: Pool, j: nat)
    requires Balanced(p) && j < |p.slots| && p.slots[j].active > 0
    ensures Balanced(Drop(CountDown(p, j), j))
  {
    var p' := Drop(CountDown(p, j), j);
    assert SlotBalanced(p, j);
    forall k: nat | k < |p'.slots| ensures SlotBalanced(p', k) {
      assert SlotBalanced(p, k);
    }
    TotalUpdate(p.slots, ActiveCount, j, p'.slots[j]);
    TotalUpdate(p.dropped, Itself, j, p'.dropped[j]);
  }

  /** `newPageSlotPool`: one slot after the other, each with its tokens. `creates(k)` says whether the
      factory makes the k-th slot. No send blocks. On the first failure the slots made so far are
      closed and the caller gets an error instead of the pool. */
  method NewPageSlotPool(poolSize: nat, max: nat, creates: nat -> bool) returns (pool: PageSlotPool, ok: bool)
    ensures fresh(pool)
    ensures ok <==> forall k: nat | k < poolSize :: creates(k)
    ensures ok ==> pool.Valid() && pool.Contents() == FullPool(poolSize, max)
    ensures ok ==> |pool.slots| == poolSize && |pool.available| == poolSize * max
                   && (forall k | 0 <= k < poolSize :: pool.slots[k] == Slot(0, false, true))
                   && forall i | 0 <= i < poolSize * max :: max > 0 && pool.available[i] == i / max
    ensures !ok ==> |pool.slots| < poolSize && !creates(|pool.slots|)
                    && forall k: nat | k < |pool.slots| :: creates(k) && pool.slots[k].closed && !pool.slots[k].running
  {
    pool := new PageSlotPool(poolSize, max);
    var k := 0;
    while k < poolSize
      invariant k <= poolSize && fresh(pool)
      invariant pool.max == max && pool.capacity == Tokens(poolSize, max)
      invariant pool.Contents() == FullPool(k, max)
      invariant forall i: nat | i < k :: creates(i)
    {
      if !creates(k) {
        pool.Close();
        return pool, false;
      }
      pool.slots, pool.dropped := pool.slots + [Slot(0, false, true)], pool.dropped + [0];
      RoomForOneMore(k, poolSize, max);
      var i := 0;
      while i < max
        invariant i <= max && fresh(pool)
        invariant pool.max == max && pool.capacity == Tokens(poolSize, max)
        invariant pool.slots == FreshSlots(k + 1) && pool.dropped == seq(k + 1, _ => 0)
        invariant pool.available == Filled(k, max) + Repeat(k, i)
      {
        pool.Send(k);
        assert Repeat(k, i + 1) == Repeat(k, i) + [k];
        i := i + 1;
      }
      k := k + 1;
    }
    FullIsBalanced(poolSize, max);
    FilledInOrder(poolSize, max);
    return pool, true;
  }

  lemma {:induction false} RoomForOneMore(k: nat, n: nat, max: nat)
    requires k < n
    ensures Tokens(k, max) + max <= Tokens(n, max)
  {
    if k < n - 1 { RoomForOneMore(k, n - 1, max); }
  }

  lemma {:induction false} RepeatAt(x: nat, k: nat, i: nat)
    requires i < k
    ensures Repeat(x, k)[i] == x
  {
    if i < k - 1 { RepeatAt(x, k - 1, i); }
  }

  lemma {:induction false} FilledAt(n: nat, max: nat, i: nat)
    requires i < Tokens(n, max)
    ensures max > 0 && Filled(n, max)[i] == i / max
  {
    TokensIsProduct(n, max);
    TokensIsProduct(n - 1, max);
    if i < Tokens(n - 1, max) {
      FilledAt(n - 1, max, i);
    } else {
      RepeatAt(n - 1, max, i - (n - 1) * max);
      Division.QuotientIs(i, max, n - 1, i - (n - 1) * max);
    }
  }

  /** The tokens stand in the order of the slots, those of one slot together. */
  lemma FilledInOrder(n: nat, max: nat)
    ensures |Filled(n, max)| == n * max
    ensures forall i | 0 <= i < n * max :: max > 0 && Filled(n, max)[i] == i / max
  {
    TokensIsProduct(n, max);
    forall i | 0 <= i < n * max ensures max > 0 && Filled(n, max)[i] == i / max { FilledAt(n, max, i); }
  }
}
