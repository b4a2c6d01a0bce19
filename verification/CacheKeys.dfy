/** The full URL of a job and the string its cache key is the hash of. */
module CacheKeys {
  import opened UrlEscaping
  import opened Wrappers
  import ProxyUrls

  /** Go's order on strings: byte by byte, a prefix first. */
  predicate LessEq(a: Bytes, b: Bytes)
  {
    a == [] || (b != [] && (a[0] < b[0] || (a[0] == b[0] && LessEq(a[1..], b[1..]))))
  }

  lemma {:induction false} LessEqAntisymmetric(a: Bytes, b: Bytes)
    requires LessEq(a, b) && LessEq(b, a)
    ensures a == b
  {
    if a != [] {
      LessEqAntisymmetric(a[1..], b[1..]);
      assert a == [a[0]] + a[1..] && b == [b[0]] + b[1..];
    }
  }

  lemma {:induction false} LessEqTransitive(a: Bytes, b: Bytes, c: Bytes)
    requires LessEq(a, b) && LessEq(b, c)
    ensures LessEq(a, c)
  {
    if a != [] && a[0] == b[0] && b[0] == c[0] { LessEqTransitive(a[1..], b[1..], c[1..]); }
  }

  lemma {:induction false} LessEqTotal(a: Bytes, b: Bytes)
    ensures LessEq(a, b) || LessEq(b, a)
  {
    if a != [] && b != [] && a[0] == b[0] { LessEqTotal(a[1..], b[1..]); }
  }

  ghost predicate Sorted(ks: seq<Bytes>)
  {
    forall i, j | 0 <= i < j < |ks| :: LessEq(ks[i], ks[j])
  }

  function Insert(k: Bytes, ks: seq<Bytes>): seq<Bytes>
  {
    if ks == [] || LessEq(k, ks[0]) then [k] + ks else [ks[0]] + Insert(k, ks[1..])
  }

  function Sort(ks: seq<Bytes>): seq<Bytes>
  {
    if ks == [] then [] else Insert(ks[0], Sort(ks[1..]))
  }

  lemma {:induction false} InsertAdds(k: Bytes, ks: seq<Bytes>)
    ensures multiset(Insert(k, ks)) == multiset(ks) + multiset{k}
    ensures forall x | x in Insert(k, ks) :: x == k || x in ks
  {
    if ks != [] {
      assert ks == [ks[0]] + ks[1..];
      if !LessEq(k, ks[0]) { InsertAdds(k, ks[1..]); }
    }
  }

  lemma {:induction false} InsertSorts(k: Bytes, ks: seq<Bytes>)
    requires Sorted(ks)
    ensures Sorted(Insert(k, ks))
  {
    if ks != [] {
      if LessEq(k, ks[0]) {
        forall i | 0 <= i < |ks| ensures LessEq(k, ks[i]) {
          if i > 0 { LessEqTransitive(k, ks[0], ks[i]); }
        }
      } else {
        LessEqTotal(k, ks[0]);
        InsertSorts(k, ks[1..]);
        InsertAdds(k, ks[1..]);
        var rest := Insert(k, ks[1..]);
        forall i | 0 <= i < |rest| ensures LessEq(ks[0], rest[i]) {
          if rest[i] != k {
            assert rest[i] in rest && rest[i] in ks[1..];
            var j :| 0 <= j < |ks[1..]| && ks[1..][j] == rest[i];
            assert ks[j + 1] == rest[i];
          }
        }
      }
    }
  }

  lemma {:induction false} SortSorts(ks: seq<Bytes>)
    ensures Sorted(Sort(ks)) && multiset(Sort(ks)) == multiset(ks)
  {
    if ks != [] {
      SortSorts(ks[1..]);
      InsertSorts(ks[0], Sort(ks[1..]));
      InsertAdds(ks[0], Sort(ks[1..]));
      assert ks == [ks[0]] + ks[1..];
    }
  }

  lemma {:induction false} SortedIsUnique(a: seq<Bytes>, b: seq<Bytes>)
    requires Sorted(a) && Sorted(b) && multiset(a) == multiset(b)
    ensures a == b
  {
    if a != [] {
      assert a[0] in multiset(b) && |multiset(a)| == |multiset(b)|;
      assert b[0] in multiset(a);
      var i :| 0 <= i < |b| && b[i] == a[0];
      var j :| 0 <= j < |a| && a[j] == b[0];
      HeadsAgree(a, b, i, j);
      TailBag(a);
      TailBag(b);
      SortedIsUnique(a[1..], b[1..]);
      assert a == [a[0]] + a[1..] && b == [b[0]] + b[1..];
    } else {
      assert |multiset(b)| == 0;
    }
  }

  lemma TailBag(a: seq<Bytes>)
    requires a != []
    ensures multiset(a[1..]) == multiset(a) - multiset{a[0]}
  {
    assert a == [a[0]] + a[1..];
  }

  lemma HeadsAgree(a: seq<Bytes>, b: seq<Bytes>, i: nat, j: nat)
    requires Sorted(a) && Sorted(b) && i < |b| && j < |a| && b[i] == a[0] && a[j] == b[0]
    ensures a[0] == b[0]
  {
    if i > 0 && j > 0 { LessEqAntisymmetric(a[0], b[0]); }
  }

  /** The keys of the map in some order, each once: what ranging over a Go map may give. */
  ghost predicate Enumerates(order: seq<Bytes>, params: map<Bytes, Bytes>)
  {
    multiset(order) == multiset(params.Keys)
  }

  function Pair(k: Bytes, v: Bytes): Bytes
  {
    Escape(k, QueryComponent) + ['='] + Escape(v, QueryComponent)
  }

  /** `Values.Encode` for one value per key. */
  function Query(ks: seq<Bytes>, params: map<Bytes, Bytes>): Bytes
    requires forall k | k in ks :: k in params
  {
    if ks == [] then []
    else if |ks| == 1 then Pair(ks[0], params[ks[0]])
    else Pair(ks[0], params[ks[0]]) + ['&'] + Query(ks[1..], params)
  }

  lemma SortedKeysInMap(order: seq<Bytes>, params: map<Bytes, Bytes>)
    requires Enumerates(order, params)
    ensures Enumerates(Sort(order), params)
    ensures forall k :: k in Sort(order) <==> k in params
  {
    SortSorts(order);
    forall k ensures k in Sort(order) <==> k in params {
      assert k in Sort(order) <==> k in multiset(Sort(order));
      assert k in params <==> k in multiset(params.Keys);
    }
  }

  function FullURL(url: Bytes, params: map<Bytes, Bytes>, order: seq<Bytes>): Bytes
    requires Enumerates(order, params)
  {
    SortedKeysInMap(order, params);
    if params == map[] then url else url + ['?'] + Query(Sort(order), params)
  }

  /** `GetFullURL`, when ranging over the parameters yields their keys in the order `order`, and ranging
      over the values built from them yields the order `encodeOrder`. */
  method GetFullURL(url: Bytes, params: map<Bytes, Bytes>, order: seq<Bytes>, encodeOrder: seq<Bytes>)
    returns (u: Bytes)
    requires Enumerates(order, params) && Enumerates(encodeOrder, params)
    ensures u == FullURL(url, params, order) && Carries(u, url, params)
  {
    var keys: seq<Bytes> := [];
    for i := 0 to |order|
      invariant keys == order[..i]
    {
      keys := keys + [order[i]];
    }
    assert keys == order;
    keys := Sort(keys);
    SortedKeysInMap(order, params);
    var urlvals: map<Bytes, Bytes> := map[];
    for i := 0 to |keys|
      invariant forall k :: k in urlvals <==> k in keys[..i]
      invariant forall k | k in urlvals :: k in params && urlvals[k] == params[k]
    {
      urlvals := urlvals[keys[i] := params[keys[i]]];
    }
    assert keys[..|keys|] == keys;
    assert urlvals == params;
    if |urlvals| > 0 {
      OrderDoesNotMatter(url, params, order, encodeOrder);
      SortedKeysInMap(encodeOrder, params);
      u := url + ['?'] + Query(Sort(encodeOrder), urlvals);
    } else {
      u := url;
    }
    assert u == FullURL(url, params, order);
    FullURLCarries(url, params, order);
  }

  /** The full URL does not depend on the order in which the map yields its keys. */
  lemma OrderDoesNotMatter(url: Bytes, params: map<Bytes, Bytes>, o1: seq<Bytes>, o2: seq<Bytes>)
    requires Enumerates(o1, params) && Enumerates(o2, params)
    ensures Sort(o1) == Sort(o2)
    ensures FullURL(url, params, o1) == FullURL(url, params, o2)
  {
    SortSorts(o1);
    SortSorts(o2);
    SortedIsUnique(Sort(o1), Sort(o2));
  }

  /** A delimiter that does not occur before its first occurrence cuts a string in only one way. */
  lemma {:induction false} CutIsUnique(a: Bytes, x: Bytes, b: Bytes, y: Bytes, d: Byte)
    requires d !in a && d !in b && a + [d] + x == b + [d] + y
    ensures a == b && x == y
  {
    assert (a + [d] + x)[0] == if a == [] then d else a[0];
    assert (b + [d] + y)[0] == if b == [] then d else b[0];
    if a == [] {
      assert (a + [d] + x)[1..] == x && (b + [d] + y)[1..] == y;
    } else {
      assert (a + [d] + x)[1..] == a[1..] + [d] + x && (b + [d] + y)[1..] == b[1..] + [d] + y;
      CutIsUnique(a[1..], x, b[1..], y, d);
      assert a == [a[0]] + a[1..] && b == [b[0]] + b[1..];
    }
  }

  lemma PairsAreClean(k: Bytes, v: Bytes)
    ensures '&' !in Pair(k, v) && '=' !in Escape(k, QueryComponent) && '=' !in Escape(v, QueryComponent)
    ensures Pair(k, v) != []
  {
    EscapeProduces(k, QueryComponent);
    EscapeProduces(v, QueryComponent);
  }

  lemma PairInjective(k: Bytes, v: Bytes, k': Bytes, v': Bytes)
    requires Pair(k, v) == Pair(k', v')
    ensures k == k' && v == v'
  {
    PairsAreClean(k, v);
    PairsAreClean(k', v');
    CutIsUnique(Escape(k, QueryComponent), Escape(v, QueryComponent),
                Escape(k', QueryComponent), Escape(v', QueryComponent), '=');
    EscapeInjective(k, k', QueryComponent);
    EscapeInjective(v, v', QueryComponent);
  }

  /** A query string determines its keys, in order, and their values. */
  lemma {:induction false} QueryInjective(
      ks: seq<Bytes>, p: map<Bytes, Bytes>, ks': seq<Bytes>, p': map<Bytes, Bytes>)
    requires (forall k | k in ks :: k in p) && (forall k | k in ks' :: k in p')
    requires Query(ks, p) == Query(ks', p')
    ensures ks == ks' && forall k | k in ks :: p[k] == p'[k]
  {
    QueryCounts(ks, p);
    QueryCounts(ks', p');
    if ks != [] {
      PairsAreClean(ks[0], p[ks[0]]);
      PairsAreClean(ks'[0], p'[ks'[0]]);
      if |ks| > 1 {
        CutIsUnique(Pair(ks[0], p[ks[0]]), Query(ks[1..], p), Pair(ks'[0], p'[ks'[0]]), Query(ks'[1..], p'), '&');
        QueryInjective(ks[1..], p, ks'[1..], p');
      }
      PairInjective(ks[0], p[ks[0]], ks'[0], p'[ks'[0]]);
      assert ks == [ks[0]] + ks[1..] && ks' == [ks'[0]] + ks'[1..];
    }
  }

  /** A query string tells whether it has no, one or more pairs. */
  lemma QueryCounts(ks: seq<Bytes>, p: map<Bytes, Bytes>)
    requires forall k | k in ks :: k in p
    ensures Query(ks, p) == [] <==> ks == []
    ensures '&' in Query(ks, p) <==> |ks| > 1
  {
    if ks != [] { PairsAreClean(ks[0], p[ks[0]]); }
  }

  // Reading a query: what a server makes of the parameters.

  /** A pair is cut at its first equals sign, and both sides are unescaped. */
  function ReadPair(s: Bytes): Option<(Bytes, Bytes)>
  {
    var (left, right) := ProxyUrls.Cut(s, '=');
    var key, value := Unescape(left, QueryComponent), Unescape(if right.Some? then right.value else [], QueryComponent);
    if key.Some? && value.Some? then Some((key.value, value.value)) else None
  }

  /** A query is cut at its ampersands. */
  function ReadQuery(s: Bytes): Option<seq<(Bytes, Bytes)>>
    decreases |s|
  {
    var (first, rest) := ProxyUrls.Cut(s, '&');
    match (ReadPair(first), rest)
    case (None, _) => None
    case (Some(pair), None) => Some([pair])
    case (Some(pair), Some(more)) =>
      match ReadQuery(more)
      case None => None
      case Some(pairs) => Some([pair] + pairs)
  }

  lemma PairReads(k: Bytes, v: Bytes)
    ensures ReadPair(Pair(k, v)) == Some((k, v))
  {
    PairsAreClean(k, v);
    ProxyUrls.CutAt(Escape(k, QueryComponent), '=', Escape(v, QueryComponent));
    UnescapeEscape(k, QueryComponent);
    UnescapeEscape(v, QueryComponent);
  }

  lemma {:induction false} QueryReads(ks: seq<Bytes>, params: map<Bytes, Bytes>)
    requires ks != [] && forall k | k in ks :: k in params
    ensures var pairs := ReadQuery(Query(ks, params));
            && pairs.Some? && |pairs.value| == |ks|
            && forall i | 0 <= i < |ks| :: pairs.value[i] == (ks[i], params[ks[i]])
  {
    var first := Pair(ks[0], params[ks[0]]);
    PairReads(ks[0], params[ks[0]]);
    PairsAreClean(ks[0], params[ks[0]]);
    if |ks| == 1 {
      ProxyUrls.CutWithout(first, '&');
    } else {
      ProxyUrls.CutAt(first, '&', Query(ks[1..], params));
      QueryReads(ks[1..], params);
    }
  }

  /** The full URL is the URL itself without parameters. Otherwise it goes on with a question mark, and what
      follows reads as the parameters, each key once, on the left of its value, in ascending order. */
  ghost predicate Carries(full: Bytes, url: Bytes, params: map<Bytes, Bytes>)
  {
    if params == map[] then full == url
    else
      && |full| > |url| && full[..|url|] == url && full[|url|] == '?'
      && var pairs := ReadQuery(full[|url| + 1..]);
         && pairs.Some? && |pairs.value| == |params|
         && (forall i | 0 <= i < |pairs.value| ::
               pairs.value[i].0 in params && pairs.value[i].1 == params[pairs.value[i].0])
         && forall i, j | 0 <= i < j < |pairs.value| :: ComesBefore(pairs.value[i].0, pairs.value[j].0)
  }

  /** The one string is a proper prefix of the other, or smaller at the first byte in which they differ. */
  ghost predicate ComesBefore(a: Bytes, b: Bytes)
  {
    a < b || exists i :: 0 <= i < |a| && i < |b| && a[..i] == b[..i] && a[i] < b[i]
  }

  lemma {:induction false} LessComesBefore(a: Bytes, b: Bytes)
    requires LessEq(a, b) && a != b
    ensures ComesBefore(a, b)
  {
    if a == [] {
      assert a < b;
    } else if a[0] < b[0] {
      assert a[..0] == b[..0];
    } else {
      assert a == [a[0]] + a[1..] && b == [b[0]] + b[1..];
      LessComesBefore(a[1..], b[1..]);
      if a[1..] < b[1..] {
        assert a < b;
      } else {
        var i :| 0 <= i < |a[1..]| && i < |b[1..]| && a[1..][..i] == b[1..][..i] && a[1..][i] < b[1..][i];
        assert a[..i + 1] == [a[0]] + a[1..][..i] && b[..i + 1] == [b[0]] + b[1..][..i];
        assert a[i + 1] < b[i + 1];
      }
    }
  }

  lemma KeysAscend(order: seq<Bytes>, params: map<Bytes, Bytes>)
    requires Enumerates(order, params)
    ensures |Sort(order)| == |params|
    ensures forall i, j | 0 <= i < j < |params| :: ComesBefore(Sort(order)[i], Sort(order)[j])
  {
    var ks := Sort(order);
    SortSorts(order);
    SortedKeysInMap(order, params);
    assert |ks| == |multiset(ks)| == |multiset(params.Keys)| == |params.Keys|;
    forall i, j | 0 <= i < j < |ks| ensures ComesBefore(ks[i], ks[j]) {
      KeysDiffer(ks, params, i, j);
      LessComesBefore(ks[i], ks[j]);
    }
  }

  lemma KeysDiffer(ks: seq<Bytes>, params: map<Bytes, Bytes>, i: nat, j: nat)
    requires Enumerates(ks, params) && i < j < |ks|
    ensures ks[i] != ks[j]
  {
    assert multiset(params.Keys)[ks[i]] <= 1;
    if ks[i] == ks[j] { OccursTwice(ks, i, j); }
  }

  lemma OccursTwice(ks: seq<Bytes>, i: nat, j: nat)
    requires i < j < |ks| && ks[i] == ks[j]
    ensures multiset(ks)[ks[i]] >= 2
  {
    assert ks == ks[..i] + [ks[i]] + ks[i + 1..j] + [ks[j]] + ks[j + 1..];
  }

  lemma FullURLCarries(url: Bytes, params: map<Bytes, Bytes>, order: seq<Bytes>)
    requires Enumerates(order, params)
    ensures Carries(FullURL(url, params, order), url, params)
  {
    if params != map[] {
      SortedKeysInMap(order, params);
      KeysAscend(order, params);
      QueryReads(Sort(order), params);
      FullURLAdds(url, params, order);
      assert FullURL(url, params, order)[|url| + 1..] == Query(Sort(order), params);
    }
  }

  /** What a full URL adds to the URL, nothing exactly when there are no parameters. */
  function Added(params: map<Bytes, Bytes>, order: seq<Bytes>): Bytes
    requires Enumerates(order, params)
  {
    SortedKeysInMap(order, params);
    if params == map[] then [] else ['?'] + Query(Sort(order), params)
  }

  lemma FullURLAdds(url: Bytes, params: map<Bytes, Bytes>, order: seq<Bytes>)
    requires Enumerates(order, params)
    ensures FullURL(url, params, order) == url + Added(params, order)
  {
    SortedKeysInMap(order, params);
    assert url + [] == url;
    assert url + ['?'] + Query(Sort(order), params) == url + (['?'] + Query(Sort(order), params));
  }

  lemma SameKeysSameValues(ks: seq<Bytes>, p: map<Bytes, Bytes>, p': map<Bytes, Bytes>)
    requires (forall k :: k in ks <==> k in p) && (forall k :: k in ks <==> k in p')
    requires forall k | k in ks :: p[k] == p'[k]
    ensures p == p'
  {
    assert p.Keys == p'.Keys;
  }

  lemma AddedSeparates(p: map<Bytes, Bytes>, o: seq<Bytes>, p': map<Bytes, Bytes>, o': seq<Bytes>)
    requires Enumerates(o, p) && Enumerates(o', p') && Added(p, o) == Added(p', o')
    ensures p == p'
  {
    if p != map[] && p' != map[] {
      SortedKeysInMap(o, p);
      SortedKeysInMap(o', p');
      assert Added(p, o)[1..] == Query(Sort(o), p) && Added(p', o')[1..] == Query(Sort(o'), p');
      QueryInjective(Sort(o), p, Sort(o'), p');
      SameKeysSameValues(Sort(o), p, p');
    }
  }

  lemma SamePrefix(a: Bytes, x: Bytes, y: Bytes)
    requires a + x == a + y
    ensures x == y
  {
    assert (a + x)[|a|..] == x && (a + y)[|a|..] == y;
  }

  /** On one URL, different parameters give different full URLs. */
  lemma FullURLSeparatesParameters(
      url: Bytes, p: map<Bytes, Bytes>, o: seq<Bytes>, p': map<Bytes, Bytes>, o': seq<Bytes>)
    requires Enumerates(o, p) && Enumerates(o', p')
    ensures FullURL(url, p, o) == FullURL(url, p', o') <==> p == p'
  {
    if FullURL(url, p, o) == FullURL(url, p', o') {
      FullURLAdds(url, p, o);
      FullURLAdds(url, p', o');
      SamePrefix(url, Added(p, o), Added(p', o'));
      AddedSeparates(p, o, p', o');
    }
    if p == p' { OrderDoesNotMatter(url, p, o, o'); }
  }

  lemma LaterCutOccurs(a: Bytes, x: Bytes, b: Bytes, y: Bytes, d: Byte)
    requires a + [d] + x == b + [d] + y
    ensures |a| < |b| ==> d in x
  {
    if |a| < |b| { assert x[|b| - |a| - 1] == (b + [d] + y)[|b|]; }
  }

  /** A delimiter that does not occur after its last occurrence cuts a string in only one way. */
  lemma LastCutIsUnique(a: Bytes, x: Bytes, b: Bytes, y: Bytes, d: Byte)
    requires d !in x && d !in y && a + [d] + x == b + [d] + y
    ensures a == b && x == y
  {
    LaterCutOccurs(a, x, b, y, d);
    LaterCutOccurs(b, y, a, x, d);
    var s := a + [d] + x;
    assert s[..|a|] == a && s[..|b|] == b && s[|a| + 1..] == x && s[|b| + 1..] == y;
  }

  lemma {:induction false} QueryHasNoQuestionMark(ks: seq<Bytes>, params: map<Bytes, Bytes>)
    requires forall k | k in ks :: k in params
    ensures '?' !in Query(ks, params)
  {
    if ks != [] {
      EscapeProduces(ks[0], QueryComponent);
      EscapeProduces(params[ks[0]], QueryComponent);
      QueryHasNoQuestionMark(ks[1..], params);
    }
  }

  /** Two targets, each a URL with parameters, that are one and the same or of which one spells the other
      out in its URL. */
  predicate SameTarget(
      u: Bytes, p: map<Bytes, Bytes>, o: seq<Bytes>, u': Bytes, p': map<Bytes, Bytes>, o': seq<Bytes>)
    requires Enumerates(o, p) && Enumerates(o', p')
  {
    || (u == u' && p == p')
    || (p == map[] && p' != map[] && u == FullURL(u', p', o'))
    || (p' == map[] && p != map[] && u' == FullURL(u, p, o))
  }

  lemma AddedBoth(
      u: Bytes, p: map<Bytes, Bytes>, o: seq<Bytes>, u': Bytes, p': map<Bytes, Bytes>, o': seq<Bytes>)
    requires Enumerates(o, p) && Enumerates(o', p') && p != map[] && p' != map[]
    requires FullURL(u, p, o) == FullURL(u', p', o')
    ensures u == u' && p == p'
  {
    SortedKeysInMap(o, p);
    SortedKeysInMap(o', p');
    QueryHasNoQuestionMark(Sort(o), p);
    QueryHasNoQuestionMark(Sort(o'), p');
    LastCutIsUnique(u, Query(Sort(o), p), u', Query(Sort(o'), p'), '?');
    AddedSeparates(p, o, p', o');
  }

  /** For all URLs and parameters: full URLs are equal if and only if URLs and parameters are, or one URL has
      no parameters and already is the other's full URL. Of URLs without a question mark only the first is
      possible. */
  lemma FullURLSeparatesTargets(
      u: Bytes, p: map<Bytes, Bytes>, o: seq<Bytes>, u': Bytes, p': map<Bytes, Bytes>, o': seq<Bytes>)
    requires Enumerates(o, p) && Enumerates(o', p')
    ensures FullURL(u, p, o) == FullURL(u', p', o') <==> SameTarget(u, p, o, u', p', o')
    ensures '?' !in u && '?' !in u' ==> (FullURL(u, p, o) == FullURL(u', p', o') <==> u == u' && p == p')
  {
    if p == p' && u == u' {
      OrderDoesNotMatter(u, p, o, o');
    } else if p != map[] && p' != map[] && FullURL(u, p, o) == FullURL(u', p', o') {
      AddedBoth(u, p, o, u', p', o');
    }
    if p != map[] { assert '?' in FullURL(u, p, o) by { FullURLAdds(u, p, o); } }
    if p' != map[] { assert '?' in FullURL(u', p', o') by { FullURLAdds(u', p', o'); } }
  }

  const POST: Bytes := "POST"

  /** The string that `GetCacheKey` hashes. */
  function PreHash(httpMethod: Bytes, fullURL: Bytes, body: Bytes): Bytes
  {
    httpMethod + [':'] + fullURL + if httpMethod == POST then body else []
  }

  /** `GetCacheKey` up to the hash: the method, a colon, the full URL and, for POST, the body. */
  method StringToHash(httpMethod: Bytes, fullURL: Bytes, body: Bytes) returns (toHash: Bytes)
    ensures toHash == PreHash(httpMethod, fullURL, body)
    ensures var m, u := |httpMethod|, |fullURL|;
            && |toHash| == m + 1 + u + (if httpMethod == "POST" then |body| else 0)
            && toHash[..m] == httpMethod && toHash[m] == ':' && toHash[m + 1..m + 1 + u] == fullURL
            && (httpMethod == "POST" ==> toHash[m + 1 + u..] == body)
  {
    toHash := httpMethod + [':'] + fullURL;
    if httpMethod == POST { toHash := toHash + body; }
  }

  /** Jobs whose methods have no colon share the hashed string exactly when they share the method and the
      full URL or, for POST, the full URL followed by the body. */
  lemma PreHashSeparates(m: Bytes, u: Bytes, b: Bytes, m': Bytes, u': Bytes, b': Bytes)
    requires ':' !in m && ':' !in m'
    ensures PreHash(m, u, b) == PreHash(m', u', b')
            <==> m == m' && if m == "POST" then u + b == u' + b' else u == u'
  {
    var x, x' := u + (if m == POST then b else []), u' + if m' == POST then b' else [];
    assert PreHash(m, u, b) == m + [':'] + x && PreHash(m', u', b') == m' + [':'] + x';
    if PreHash(m, u, b) == PreHash(m', u', b') { CutIsUnique(m, x, m', x', ':'); }
    if m != POST { assert x == u; }
    if m' != POST { assert x' == u'; }
  }

  /** Jobs that do not post share the hashed string exactly when they share the method and their targets are
      the same; on one URL, exactly when they share the method and the parameters. */
  lemma KeysSeparateJobs(
      m: Bytes, u: Bytes, p: map<Bytes, Bytes>, o: seq<Bytes>,
      m': Bytes, u': Bytes, p': map<Bytes, Bytes>, o': seq<Bytes>)
    requires ':' !in m && ':' !in m' && m != "POST" && Enumerates(o, p) && Enumerates(o', p')
    ensures PreHash(m, FullURL(u, p, o), []) == PreHash(m', FullURL(u', p', o'), [])
            <==> m == m' && SameTarget(u, p, o, u', p', o')
    ensures u == u' ==> (SameTarget(u, p, o, u', p', o') <==> p == p')
  {
    PreHashSeparates(m, FullURL(u, p, o), [], m', FullURL(u', p', o'), []);
    FullURLSeparatesTargets(u, p, o, u', p', o');
    if u == u' { FullURLSeparatesParameters(u, p, o, p', o'); }
  }

  lemma OnePrefixesTheOther(x: Bytes, y: Bytes, a: Bytes, b: Bytes)
    requires x + a == y + b
    ensures x <= y || y <= x
  {
    assert x == (x + a)[..|x|] && y == (y + b)[..|y|];
  }

  /** The hashed string of two POST jobs does not tell where the URL ends and the body begins: it can be
      shared if and only if one full URL begins with the other. */
  lemma PostBodiesCollideIff(u: Bytes, u': Bytes)
    ensures (exists b: Bytes, b': Bytes :: PreHash("POST", u, b) == PreHash("POST", u', b')) <==> u <= u' || u' <= u
  {
    if b: Bytes, b': Bytes :| PreHash(POST, u, b) == PreHash(POST, u', b') {
      PreHashSeparates(POST, u, b, POST, u', b');
      OnePrefixesTheOther(u, u', b, b');
    }
    if u <= u' { PostBodiesCollide(u, u'); }
    if u' <= u {
      PostBodiesCollide(u', u);
      var b, b' :| PreHash(POST, u', b) == PreHash(POST, u, b');
      assert PreHash(POST, u, b') == PreHash(POST, u', b);
    }
  }

  lemma PostBodiesCollide(u: Bytes, u': Bytes)
    requires u <= u'
    ensures exists b: Bytes, b': Bytes :: PreHash(POST, u, b) == PreHash(POST, u', b')
  {
    var none: Bytes, rest: Bytes := [], u'[|u|..];
    assert u' + none == u' == u + rest;
    PreHashSeparates(POST, u, rest, POST, u', none);
  }

  /** Jobs with two different methods can share the hashed string if and only if one method, followed by its
      colon, begins with the other, followed by its colon. */
  lemma MethodsCollideIff(m: Bytes, m': Bytes)
    ensures (exists u: Bytes, b: Bytes, u': Bytes, b': Bytes :: PreHash(m, u, b) == PreHash(m', u', b'))
            <==> m + [':'] <= m' + [':'] || m' + [':'] <= m + [':']
  {
    if u: Bytes, b: Bytes, u': Bytes, b': Bytes :| PreHash(m, u, b) == PreHash(m', u', b') {
      CollisionsArePrefixes(m, u, b, m', u', b');
    }
    if m + [':'] <= m' + [':'] { PrefixesCollide(m, m'); }
    if m' + [':'] <= m + [':'] {
      PrefixesCollide(m', m);
      var u, b, u', b' :| PreHash(m', u, b) == PreHash(m, u', b');
      assert PreHash(m, u', b') == PreHash(m', u, b);
    }
  }

  lemma CollisionsArePrefixes(m: Bytes, u: Bytes, b: Bytes, m': Bytes, u': Bytes, b': Bytes)
    requires PreHash(m, u, b) == PreHash(m', u', b')
    ensures m + [':'] <= m' + [':'] || m' + [':'] <= m + [':']
  {
    var x, x' := u + (if m == POST then b else []), u' + if m' == POST then b' else [];
    assert PreHash(m, u, b) == (m + [':']) + x && PreHash(m', u', b') == (m' + [':']) + x';
    OnePrefixesTheOther(m + [':'], m' + [':'], x, x');
  }

  lemma PrefixesCollide(m: Bytes, m': Bytes)
    requires m + [':'] <= m' + [':']
    ensures exists u: Bytes, b: Bytes, u': Bytes, b': Bytes :: PreHash(m, u, b) == PreHash(m', u', b')
  {
    var none: Bytes := [];
    var rest := (m' + [':'])[|m| + 1..];
    assert m' + [':'] == m + [':'] + rest;
    assert PreHash(m, rest, none) == m + [':'] + rest;
    assert PreHash(m', none, none) == m' + [':'];
    assert PreHash(m, rest, none) == PreHash(m', none, none);
  }
}
