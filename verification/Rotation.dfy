/** Round robin over a list of proxies: an atomic 32-bit counter, and a plain counter under a lock. */
module Rotation {
  import Division

  const WRAP: nat := 0x1_0000_0000

  class Rotator<Proxy(==,!new)> {
    const proxies: seq<Proxy>
    var current: nat

    ghost predicate Valid()
      reads this
    {
      0 < |proxies| < WRAP && current < WRAP
    }

    constructor (proxies: seq<Proxy>)
      requires 0 < |proxies| < WRAP
      ensures Valid() && this.proxies == proxies && current == 0
    {
      this.proxies := proxies;
      current := 0;
    }

    /** The counter goes up by one and wraps; the proxy is the one at its value before. */
    method Next() returns (p: Proxy)
      requires Valid()
      modifies this
      ensures Valid() && p == proxies[old(current) % |proxies|]
      ensures current == if old(current) == 0xFFFF_FFFF then 0 else old(current) + 1
    {
      var was := current;
      if was + 1 < WRAP { Division.Below(was + 1, WRAP); } else { Division.QuotientIs(was + 1, WRAP, 1, 0); }
      current := (current + 1) % WRAP;
      p := proxies[was % |proxies|];
    }

    /** `w` draws in a row. As long as the counter does not wrap, a proxy that is listed m times gets m
        fair shares of them. */
    method Draw(w: nat) returns (draws: seq<Proxy>)
      requires Valid()
      modifies this
      ensures Valid() && current == (old(current) + w) % WRAP
      ensures draws == Drawn(proxies, old(current), w)
      ensures forall p: Proxy :: multiset(draws)[p] == UsesOf(proxies, old(current), w, p)
      ensures old(current) + w <= WRAP ==> FairlyShared(proxies, draws)
    {
      draws := [];
      Division.Below(current, WRAP);
      for i := 0 to w
        invariant Valid() && current == (old(current) + i) % WRAP && draws == Drawn(proxies, old(current), i)
      {
        var p := Next();
        DrawsFollowTheCounter(old(current), i, |proxies|);
        OneMoreDrawn(proxies, old(current), i);
        draws := draws + [p];
      }
      AllDrawnCounts(proxies, old(current), w);
      if old(current) + w <= WRAP { DrawnFairly(proxies, old(current), w); }
    }
  }

  class ProxyPool<Proxy(==,!new)> {
    const proxies: seq<Proxy>
    var current: nat

    ghost predicate Valid()
      reads this
    {
      |proxies| > 0
    }

    constructor (proxies: seq<Proxy>)
      requires |proxies| > 0
      ensures Valid() && this.proxies == proxies && current == 0
    {
      this.proxies := proxies;
      current := 0;
    }

    method Next() returns (p: Proxy)
      requires Valid()
      modifies this
      ensures Valid() && p == proxies[old(current) % |proxies|] && current == old(current) + 1
    {
      p := proxies[current % |proxies|];
      current := current + 1;
    }

    /** `w` draws in a row; they are shared fairly, and until the rotator's counter wraps they are the draws
        of a rotator over the same proxies at the same counter value. */
    method Draw(w: nat) returns (draws: seq<Proxy>)
      requires Valid()
      modifies this
      ensures Valid() && current == old(current) + w
      ensures |draws| == w && FairlyShared(proxies, draws)
      ensures old(current) + w <= WRAP ==> draws == Drawn(proxies, old(current), w)
    {
      draws := [];
      for i := 0 to w
        invariant Valid() && current == old(current) + i && draws == DrawnWithoutWrap(proxies, old(current), i)
      {
        var p := Next();
        draws := draws + [p];
      }
      WithoutWrapFairly(proxies, old(current), w);
      if old(current) + w <= WRAP { PoolAndRotatorAgree(proxies, old(current), w); }
    }
  }

  /** The position drawn by the `i`-th of the draws that start at counter value `start`. */
  function Position(start: nat, i: nat, n: nat): (p: nat)
    requires n > 0
    ensures p < n
  {
    (start + i) % WRAP % n
  }

  /** How often position `p` comes up in `w` draws. */
  function Uses(start: nat, w: nat, n: nat, p: nat): nat
    requires n > 0
  {
    if w == 0 then 0
    else Uses(start, w - 1, n, p) + if Position(start, w - 1, n) == p then 1 else 0
  }

  /** The same for a counter that never wraps. */
  function Residues(start: nat, w: nat, n: nat, p: nat): nat
    requires n > 0
  {
    if w == 0 then 0
    else Residues(start, w - 1, n, p) + if (start + w - 1) % n == p then 1 else 0
  }

  lemma {:induction false} ResiduesSplit(start: nat, v: nat, w: nat, n: nat, p: nat)
    requires n > 0
    ensures Residues(start, v + w, n, p) == Residues(start, v, n, p) + Residues(start + v, w, n, p)
  {
    if w > 0 {
      ResiduesSplit(start, v, w - 1, n, p);
      assert v + w - 1 == v + (w - 1);
    }
  }

  /** In `n` draws in a row every position comes up once. */
  lemma {:induction false} OneRoundUsesEachOnce(start: nat, n: nat, p: nat)
    requires p < n
    ensures Residues(start, n, n, p) == 1
  {
    if start == 0 {
      FirstRound(n, n, p);
    } else {
      OneRoundUsesEachOnce(start - 1, n, p);
      ResiduesSplit(start - 1, 1, n - 1, n, p);
      ResiduesSplit(start, n - 1, 1, n, p);
      Division.OneMore(start - 1, n);
      assert Residues(start - 1, 1, n, p) == if (start - 1) % n == p then 1 else 0;
      assert Residues(start + n - 1, 1, n, p) == if (start + n - 1) % n == p then 1 else 0;
    }
  }

  lemma {:induction false} FirstRound(w: nat, n: nat, p: nat)
    requires w <= n && p < n
    ensures Residues(0, w, n, p) == if p < w then 1 else 0
  {
    if w > 0 {
      FirstRound(w - 1, n, p);
      Division.Below(w - 1, n);
    }
  }

  lemma {:induction false} AtMostOnceInARound(start: nat, w: nat, n: nat, p: nat)
    requires p < n && w <= n
    ensures Residues(start, w, n, p) <= 1
  {
    OneRoundUsesEachOnce(start, n, p);
    ResiduesSplit(start, w, n - w, n, p);
  }

  function CeilDiv(w: nat, n: nat): nat
    requires n > 0
  {
    if w % n == 0 then w / n else w / n + 1
  }

  /** Without wrapping every position gets its fair share, rounded down or up. */
  lemma {:induction false} FairWithoutWrap(start: nat, w: nat, n: nat, p: nat)
    requires p < n
    ensures w / n <= Residues(start, w, n, p) <= CeilDiv(w, n)
    decreases w
  {
    if w < n {
      AtMostOnceInARound(start, w, n, p);
      Division.Below(w, n);
    } else {
      OneRoundUsesEachOnce(start, n, p);
      ResiduesSplit(start, n, w - n, n, p);
      FairWithoutWrap(start + n, w - n, n, p);
      Division.OneMore(w - n, n);
    }
  }

  /** Before the wrap the draws follow the residues; after it they start again at zero. */
  lemma {:induction false} UsesBeforeWrap(start: nat, w: nat, n: nat, p: nat)
    requires n > 0 && start + w <= WRAP
    ensures Uses(start, w, n, p) == Residues(start, w, n, p)
  {
    if w > 0 {
      UsesBeforeWrap(start, w - 1, n, p);
      Division.Below(start + w - 1, WRAP);
    }
  }

  lemma {:induction false} UsesAcrossWrap(start: nat, w: nat, n: nat, p: nat)
    requires n > 0 && start < WRAP <= start + w <= 2 * WRAP
    ensures Uses(start, w, n, p)
            == Residues(start, WRAP - start, n, p) + Residues(0, start + w - WRAP, n, p)
    decreases w
  {
    if start + w == WRAP {
      UsesBeforeWrap(start, w, n, p);
    } else {
      UsesAcrossWrap(start, w - 1, n, p);
      Division.QuotientIs(start + w - 1, WRAP, 1, start + w - 1 - WRAP);
    }
  }

  lemma CeilDivIs(w: nat, n: nat)
    requires n > 0
    ensures CeilDiv(w, n) == (w + n - 1) / n
  {
    var q, r := w / n, w % n;
    assert w == q * n + r;
    if r == 0 {
      Division.QuotientIs(w + n - 1, n, q, n - 1);
    } else {
      assert (q + 1) * n == q * n + n;
      Division.QuotientIs(w + n - 1, n, q + 1, r - 1);
    }
  }

  /** Any `w` draws in a row, by whatever goroutines, use every one of the `n` positions w / n times,
      rounded down or up, as long as the counter does not wrap; across one wrap two positions differ by
      at most two uses. */
  lemma RoundRobinIsFair(start: nat, w: nat, n: nat, p: nat, q: nat)
    requires start < WRAP && p < n && q < n
    ensures start + w <= 0x1_0000_0000 ==> w / n <= Uses(start, w, n, p) <= (w + n - 1) / n
    ensures start + w <= 0x2_0000_0000 ==> Uses(start, w, n, p) <= Uses(start, w, n, q) + 2
  {
    if start + w <= WRAP {
      CeilDivIs(w, n);
      UsesBeforeWrap(start, w, n, p);
      UsesBeforeWrap(start, w, n, q);
      FairWithoutWrap(start, w, n, p);
      FairWithoutWrap(start, w, n, q);
    } else if start + w <= 2 * WRAP {
      UsesAcrossWrap(start, w, n, p);
      UsesAcrossWrap(start, w, n, q);
      FairWithoutWrap(start, WRAP - start, n, p);
      FairWithoutWrap(start, WRAP - start, n, q);
      FairWithoutWrap(0, start + w - WRAP, n, p);
      FairWithoutWrap(0, start + w - WRAP, n, q);
    }
  }

  /** Across the wrap the share stays exact for all windows if and only if the number of proxies divides
      the number of counter values. */
  lemma FairAcrossWrapIff(n: nat)
    requires 0 < n < WRAP
    ensures (forall start: nat, w: nat, p: nat | start < WRAP && start + w <= 2 * WRAP && p < n ::
               w / n <= Uses(start, w, n, p) <= CeilDiv(w, n))
            <==> 0x1_0000_0000 % n == 0
  {
    if WRAP % n == 0 {
      forall start: nat, w: nat, p: nat | start < WRAP && start + w <= 2 * WRAP && p < n
        ensures w / n <= Uses(start, w, n, p) <= CeilDiv(w, n)
      {
        UsesLikeResidues(start, w, n, p);
        FairWithoutWrap(start, w, n, p);
      }
    } else {
      UnfairWindow(n);
      var r := WRAP % n;
      assert WRAP - r < WRAP && (WRAP - r) + (r + 1) <= 2 * WRAP;
      assert !((r + 1) / n <= Uses(WRAP - r, r + 1, n, 0) <= CeilDiv(r + 1, n));
    }
  }

  lemma {:induction false} UsesLikeResidues(start: nat, w: nat, n: nat, p: nat)
    requires n > 0 && WRAP % n == 0 && start < WRAP && start + w <= 2 * WRAP
    ensures Uses(start, w, n, p) == Residues(start, w, n, p)
  {
    if w > 0 {
      UsesLikeResidues(start, w - 1, n, p);
      var x := start + w - 1;
      if x >= WRAP {
        Division.QuotientIs(x, WRAP, 1, x - WRAP);
        Division.Shift(x - WRAP, WRAP, n);
      } else {
        Division.Below(x, WRAP);
      }
    }
  }

  /** The last, incomplete round before the wrap and the first draw after it use position 0 twice. */
  lemma UnfairWindow(n: nat)
    requires 0 < n < WRAP && WRAP % n != 0
    ensures var r := WRAP % n;
            0 < r < n && Uses(WRAP - r, r + 1, n, 0) == 2 && CeilDiv(r + 1, n) == 1
  {
    var r := WRAP % n;
    UsesAcrossWrap(WRAP - r, r + 1, n, 0);
    assert WRAP - r == (WRAP / n) * n + 0;
    Division.QuotientIs(WRAP - r, n, WRAP / n, 0);
    ResiduesSplit(WRAP - r, 1, r - 1, n, 0);
    assert Residues(WRAP - r, 1, n, 0) == 1;
    AtMostOnceInARound(WRAP - r, r, n, 0);
    assert Residues(0, 1, n, 0) == 1 by { Division.Below(0, n); }
    if r + 1 < n { Division.Below(r + 1, n); } else { Division.OneMore(0, n); Division.Below(0, n); }
  }

  /** Draw after draw, whoever makes it, the rotator's counter and position are those of the window. */
  lemma DrawsFollowTheCounter(start: nat, i: nat, n: nat)
    requires n > 0
    ensures var c := (start + i) % WRAP;
            && c % n == Position(start, i, n)
            && (start + i + 1) % WRAP == if c == 0xFFFF_FFFF then 0 else c + 1
  {
    var x, r := start + i, (start + i) % WRAP;
    assert x == (x / WRAP) * WRAP + r;
    if r + 1 < WRAP {
      Division.QuotientIs(x + 1, WRAP, x / WRAP, r + 1);
    } else {
      Division.QuotientIs(x + 1, WRAP, x / WRAP + 1, 0);
    }
  }

  // The draws themselves.

  /** What `w` draws of a rotator yield that starts at counter value `start`. */
  function Drawn<Proxy>(proxies: seq<Proxy>, start: nat, w: nat): seq<Proxy>
    requires |proxies| > 0
  {
    seq(w, i requires 0 <= i < w => proxies[Position(start, i, |proxies|)])
  }

  lemma OneMoreDrawn<Proxy>(proxies: seq<Proxy>, start: nat, i: nat)
    requires |proxies| > 0
    ensures Drawn(proxies, start, i + 1) == Drawn(proxies, start, i) + [proxies[Position(start, i, |proxies|)]]
  {
  }

  /** What `w` draws of a pool yield, whose counter does not wrap. */
  function DrawnWithoutWrap<Proxy>(proxies: seq<Proxy>, start: nat, w: nat): seq<Proxy>
    requires |proxies| > 0
  {
    seq(w, i requires 0 <= i < w => proxies[(start + i) % |proxies|])
  }

  /** The pool's counter draws what the rotator's draws until that wraps. */
  lemma PoolAndRotatorAgree<Proxy>(proxies: seq<Proxy>, start: nat, w: nat)
    requires |proxies| > 0 && start + w <= WRAP
    ensures DrawnWithoutWrap(proxies, start, w) == Drawn(proxies, start, w)
  {
    forall i | 0 <= i < w ensures DrawnWithoutWrap(proxies, start, w)[i] == Drawn(proxies, start, w)[i] {
      Division.Below(start + i, WRAP);
    }
  }

  /** The sum of `uses(q)` over the positions `q` below `k` that list proxy `p`. */
  function SumOver<Proxy(==)>(proxies: seq<Proxy>, uses: nat -> nat, p: Proxy, k: nat): nat
    requires k <= |proxies|
  {
    if k == 0 then 0
    else SumOver(proxies, uses, p, k - 1) + if proxies[k - 1] == p then uses(k - 1) else 0
  }

  /** How often a proxy comes up in `w` draws: the uses of its positions together. */
  function UsesOf<Proxy(==)>(proxies: seq<Proxy>, start: nat, w: nat, p: Proxy): nat
    requires |proxies| > 0
  {
    SumOver(proxies, q => Uses(start, w, |proxies|, q), p, |proxies|)
  }

  /** A proxy listed m times is used m times the share of one position, rounded down or up. */
  ghost predicate FairlyShared<Proxy(!new)>(proxies: seq<Proxy>, draws: seq<Proxy>)
    requires |proxies| > 0
  {
    forall p: Proxy ::
      multiset(proxies)[p] * (|draws| / |proxies|) <= multiset(draws)[p]
      <= multiset(proxies)[p] * ((|draws| + |proxies| - 1) / |proxies|)
  }

  /** One more use at position `at` is one more use of the proxy listed there. */
  lemma {:induction false} OneMoreUse<Proxy>(
      proxies: seq<Proxy>, uses: nat -> nat, more: nat -> nat, at: nat, p: Proxy, k: nat)
    requires k <= |proxies| && at < |proxies|
    requires forall q: nat :: more(q) == uses(q) + if q == at then 1 else 0
    ensures SumOver(proxies, more, p, k) == SumOver(proxies, uses, p, k) + if at < k && proxies[at] == p then 1 else 0
  {
    if k > 0 { OneMoreUse(proxies, uses, more, at, p, k - 1); }
  }

  lemma {:induction false} NoUses<Proxy>(proxies: seq<Proxy>, uses: nat -> nat, p: Proxy, k: nat)
    requires k <= |proxies| && forall q: nat :: uses(q) == 0
    ensures SumOver(proxies, uses, p, k) == 0
  {
    if k > 0 { NoUses(proxies, uses, p, k - 1); }
  }

  lemma {:induction false} DrawnCounts<Proxy>(proxies: seq<Proxy>, start: nat, w: nat, p: Proxy)
    requires |proxies| > 0
    ensures multiset(Drawn(proxies, start, w))[p] == UsesOf(proxies, start, w, p)
  {
    var n := |proxies|;
    if w == 0 {
      NoUses(proxies, q => Uses(start, 0, n, q), p, n);
    } else {
      var at := Position(start, w - 1, n);
      DrawnCounts(proxies, start, w - 1, p);
      OneMoreUse(proxies, q => Uses(start, w - 1, n, q), q => Uses(start, w, n, q), at, p, n);
      assert Drawn(proxies, start, w) == Drawn(proxies, start, w - 1) + [proxies[at]];
    }
  }

  lemma AllDrawnCounts<Proxy(!new)>(proxies: seq<Proxy>, start: nat, w: nat)
    requires |proxies| > 0
    ensures forall p: Proxy :: multiset(Drawn(proxies, start, w))[p] == UsesOf(proxies, start, w, p)
  {
    forall p: Proxy ensures multiset(Drawn(proxies, start, w))[p] == UsesOf(proxies, start, w, p) {
      DrawnCounts(proxies, start, w, p);
    }
  }

  lemma {:induction false} SumBetween<Proxy>(
      proxies: seq<Proxy>, uses: nat -> nat, p: Proxy, k: nat, low: nat, high: nat)
    requires k <= |proxies| && forall q: nat | q < k :: low <= uses(q) <= high
    ensures multiset(proxies[..k])[p] * low <= SumOver(proxies, uses, p, k) <= multiset(proxies[..k])[p] * high
  {
    if k > 0 {
      SumBetween(proxies, uses, p, k - 1, low, high);
      assert proxies[..k] == proxies[..k - 1] + [proxies[k - 1]];
      var m := multiset(proxies[..k - 1])[p];
      assert multiset(proxies[..k])[p] == m + if proxies[k - 1] == p then 1 else 0;
      OneMoreShare(m, low);
      OneMoreShare(m, high);
    }
  }

  lemma OneMoreShare(m: nat, share: nat)
    ensures (m + 1) * share == m * share + share
  {
  }

  /** Fair positions make fairly shared proxies. */
  lemma FairPositionsShareFairly<Proxy(!new)>(proxies: seq<Proxy>, uses: nat -> nat, draws: seq<Proxy>)
    requires |proxies| > 0
    requires forall q: nat | q < |proxies| :: |draws| / |proxies| <= uses(q) <= CeilDiv(|draws|, |proxies|)
    requires forall p: Proxy :: multiset(draws)[p] == SumOver(proxies, uses, p, |proxies|)
    ensures FairlyShared(proxies, draws)
  {
    var low, high := |draws| / |proxies|, CeilDiv(|draws|, |proxies|);
    CeilDivIs(|draws|, |proxies|);
    forall p: Proxy ensures multiset(proxies)[p] * low <= multiset(draws)[p] <= multiset(proxies)[p] * high {
      SumBetween(proxies, uses, p, |proxies|, low, high);
      assert proxies[..|proxies|] == proxies;
    }
  }

  lemma DrawnFairly<Proxy(!new)>(proxies: seq<Proxy>, start: nat, w: nat)
    requires |proxies| > 0 && start < WRAP && start + w <= WRAP
    ensures FairlyShared(proxies, Drawn(proxies, start, w))
  {
    var n := |proxies|;
    forall q: nat | q < n ensures w / n <= Uses(start, w, n, q) <= CeilDiv(w, n) {
      RoundRobinIsFair(start, w, n, q, q);
      CeilDivIs(w, n);
    }
    AllDrawnCounts(proxies, start, w);
    FairPositionsShareFairly(proxies, q => Uses(start, w, n, q), Drawn(proxies, start, w));
  }

  lemma {:induction false} WithoutWrapCounts<Proxy>(proxies: seq<Proxy>, start: nat, w: nat, p: Proxy)
    requires |proxies| > 0
    ensures multiset(DrawnWithoutWrap(proxies, start, w))[p]
            == SumOver(proxies, q => Residues(start, w, |proxies|, q), p, |proxies|)
  {
    var n := |proxies|;
    if w == 0 {
      NoUses(proxies, q => Residues(start, 0, n, q), p, n);
    } else {
      var at := (start + w - 1) % n;
      WithoutWrapCounts(proxies, start, w - 1, p);
      OneMoreUse(proxies, q => Residues(start, w - 1, n, q), q => Residues(start, w, n, q), at, p, n);
      assert DrawnWithoutWrap(proxies, start, w) == DrawnWithoutWrap(proxies, start, w - 1) + [proxies[at]];
    }
  }

  lemma WithoutWrapFairly<Proxy(!new)>(proxies: seq<Proxy>, start: nat, w: nat)
    requires |proxies| > 0
    ensures FairlyShared(proxies, DrawnWithoutWrap(proxies, start, w))
  {
    var n := |proxies|;
    forall q: nat | q < n ensures w / n <= Residues(start, w, n, q) <= CeilDiv(w, n) {
      FairWithoutWrap(start, w, n, q);
    }
    forall p: Proxy
      ensures multiset(DrawnWithoutWrap(proxies, start, w))[p] == SumOver(proxies, q => Residues(start, w, n, q), p, n)
    {
      WithoutWrapCounts(proxies, start, w, p);
    }
    FairPositionsShareFairly(proxies, q => Residues(start, w, n, q), DrawnWithoutWrap(proxies, start, w));
  }
}
