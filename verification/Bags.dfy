/** What a sequence of agents holds: a bag of tickets, or a total weight. */
module Bags {

  /** Receiving from a channel takes out its first element. */
  lemma TakeOut(channel: seq<nat>, j: nat)
    requires channel != []
    ensures multiset(channel)[j] == multiset(channel[1..])[j] + if j == channel[0] then 1 else 0
  {
    assert channel == [channel[0]] + channel[1..];
  }

  /** Sending on a channel puts one element in. */
  lemma PutIn(channel: seq<nat>, x: nat, j: nat)
    ensures multiset(channel + [x])[j] == multiset(channel)[j] + if j == x then 1 else 0
  {
  }

  /** A queue that keeps its order over one step, and over the rest of a run, keeps it over the run. */
  lemma QueueGoesOn<T>(
      queue: seq<T>, put: seq<T>, got: seq<T>, next: seq<T>, puts: seq<T>, gots: seq<T>, end: seq<T>)
    requires queue + put == got + next && next + puts == gots + end
    ensures queue + (put + puts) == (got + gots) + end
  {
    assert queue + (put + puts) == (queue + put) + puts == got + (next + puts);
  }

  /** How often ticket `t` is held by the agents of `s` together. */
  function Held<T>(s: seq<T>, load: T -> multiset<nat>, t: nat): nat
  {
    if s == [] then 0 else load(s[0])[t] + Held(s[1..], load, t)
  }

  lemma {:induction false} HeldUpdate<T>(s: seq<T>, load: T -> multiset<nat>, i: nat, x: T, t: nat)
    requires i < |s|
    ensures Held(s[i := x], load, t) + load(s[i])[t] == Held(s, load, t) + load(x)[t]
  {
    if i == 0 {
      assert s[i := x][1..] == s[1..];
    } else {
      HeldUpdate(s[1..], load, i - 1, x, t);
      assert s[i := x][1..] == s[1..][i - 1 := x];
    }
  }

  lemma {:induction false} HeldContains<T>(s: seq<T>, load: T -> multiset<nat>, i: nat, t: nat)
    requires i < |s|
    ensures load(s[i])[t] <= Held(s, load, t)
  {
    if i > 0 { HeldContains(s[1..], load, i - 1, t); }
  }

  /** What two different agents hold adds up. */
  lemma {:induction false} HeldByTwo<T>(s: seq<T>, load: T -> multiset<nat>, i: nat, j: nat, t: nat)
    requires i < j < |s|
    ensures load(s[i])[t] + load(s[j])[t] <= Held(s, load, t)
  {
    if i == 0 {
      HeldContains(s[1..], load, j - 1, t);
    } else {
      HeldByTwo(s[1..], load, i - 1, j - 1, t);
    }
  }

  /** Whatever is held is held by somebody. */
  lemma {:induction false} Holder<T>(s: seq<T>, load: T -> multiset<nat>, t: nat) returns (i: nat)
    requires Held(s, load, t) > 0
    ensures i < |s| && t in load(s[i])
  {
    if t in load(s[0]) {
      i := 0;
    } else {
      i := Holder(s[1..], load, t);
      i := i + 1;
    }
  }

  lemma {:induction false} HeldByNobody<T>(s: seq<T>, load: T -> multiset<nat>, t: nat)
    requires forall x :: x in s ==> t !in load(x)
    ensures Held(s, load, t) == 0
  {
    if s != [] { HeldByNobody(s[1..], load, t); }
  }

  lemma {:induction false} HeldPointwise<T>(s: seq<T>, s': seq<T>, load: T -> multiset<nat>, t: nat)
    requires |s| == |s'| && forall i | 0 <= i < |s| :: load(s[i]) == load(s'[i])
    ensures Held(s, load, t) == Held(s', load, t)
  {
    if s != [] {
      assert load(s[0]) == load(s'[0]);
      HeldPointwise(s[1..], s'[1..], load, t);
    }
  }

  /** The total weight of the agents of `s`. */
  function Total<T>(s: seq<T>, weight: T -> nat): nat
  {
    if s == [] then 0 else weight(s[0]) + Total(s[1..], weight)
  }

  lemma {:induction false} TotalUpdate<T>(s: seq<T>, weight: T -> nat, i: nat, x: T)
    requires i < |s|
    ensures Total(s[i := x], weight) + weight(s[i]) == Total(s, weight) + weight(x)
  {
    if i == 0 {
      assert s[i := x][1..] == s[1..];
    } else {
      TotalUpdate(s[1..], weight, i - 1, x);
      assert s[i := x][1..] == s[1..][i - 1 := x];
    }
  }

  lemma {:induction false} TotalPointwise<T>(s: seq<T>, s': seq<T>, weight: T -> nat)
    requires |s| == |s'| && forall i | 0 <= i < |s| :: weight(s[i]) == weight(s'[i])
    ensures Total(s, weight) == Total(s', weight)
  {
    if s != [] {
      assert weight(s[0]) == weight(s'[0]);
      TotalPointwise(s[1..], s'[1..], weight);
    }
  }

  lemma {:induction false} TotalBound<T>(s: seq<T>, weight: T -> nat)
    requires forall x :: x in s ==> weight(x) <= 1
    ensures Total(s, weight) <= |s|
  {
    if s != [] { TotalBound(s[1..], weight); }
  }

  lemma {:induction false} TotalAtLeast<T>(s: seq<T>, weight: T -> nat, i: nat)
    requires i < |s|
    ensures weight(s[i]) <= Total(s, weight)
  {
    if i > 0 { TotalAtLeast(s[1..], weight, i - 1); }
  }

  lemma {:induction false} TotalNothing<T>(s: seq<T>, weight: T -> nat)
    requires forall i | 0 <= i < |s| :: weight(s[i]) == 0
    ensures Total(s, weight) == 0
  {
    if s != [] {
      assert weight(s[0]) == 0;
      TotalNothing(s[1..], weight);
    }
  }

  /** No element occurs twice. */
  ghost predicate NoRepeats<T(!new)>(s: seq<T>)
  {
    forall i, j :: 0 <= i < j < |s| ==> s[i] != s[j]
  }
}
