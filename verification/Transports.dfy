/** The rotator as an HTTP transport: one cached transport per proxy URL. */
module Transports {
  import opened UrlEscaping
  import opened ProxyUrls
  import opened Wrappers
  import Rotation
  import Division

  datatype Credentials = Anonymous | Login(username: Bytes, password: Bytes)

  /** A request goes out through a transport, or fails because the proxy's URL does not parse. */
  datatype Sent = Through(credentials: Credentials) | BadProxyUrl

  /** The credentials a transport made for the proxy carries. */
  function CredentialsOf(p: Proxy): Credentials
  {
    if p.username != [] && p.password != [] then Login(p.username, p.password) else Anonymous
  }

  /** The request carries the proxy's username and password, or nothing if either is empty. */
  predicate Carries(sent: Sent, p: Proxy)
  {
    match sent
    case BadProxyUrl => false
    case Through(Anonymous) => p.username == [] || p.password == []
    case Through(Login(n, w)) => n == p.username && n != [] && w == p.password && w != []
  }

  type Cache = map<Bytes, Credentials>

  /** A request sent through `p`: a cached transport is used as it is. */
  function SentThrough(cache: Cache, p: Proxy): Sent
  {
    if p.url in cache then Through(cache[p.url])
    else if Parse(p.url).None? then BadProxyUrl
    else Through(CredentialsOf(p))
  }

  function Remember(cache: Cache, p: Proxy): Cache
  {
    match SentThrough(cache, p)
    case Through(c) => cache[p.url := c]
    case BadProxyUrl => cache
  }

  class RoundTripper {
    const rotator: Rotation.Rotator<Proxy>
    var cache: Cache

    constructor (rotator: Rotation.Rotator<Proxy>)
      ensures this.rotator == rotator && cache == map[]
    {
      this.rotator := rotator;
      cache := map[];
    }

    /** The request itself is not part of the model. */
    method RoundTrip() returns (sent: Sent)
      requires rotator.Valid()
      modifies this, rotator
      ensures rotator.Valid()
      ensures rotator.current == if old(rotator.current) == 0xFFFF_FFFF then 0 else old(rotator.current) + 1
      ensures var p := rotator.proxies[old(rotator.current) % |rotator.proxies|];
              && sent == SentThrough(old(cache), p) && cache == Remember(old(cache), p)
              && (p.url in old(cache) ==> sent == Through(old(cache)[p.url]) && cache == old(cache))
              && (p.url !in old(cache) ==>
                    if Parse(p.url).None? then sent == BadProxyUrl && cache == old(cache)
                    else Carries(sent, p) && cache == old(cache)[p.url := sent.credentials])
    {
      var next := rotator.Next();
      if next.url in cache {
        sent := Through(cache[next.url]);
        assert cache == cache[next.url := cache[next.url]];
      } else {
        var proxyUrl := Parse(next.url);
        if proxyUrl.None? { return BadProxyUrl; }
        var credentials := Anonymous;
        if next.username != [] && next.password != [] {
          credentials := Login(next.username, next.password);
        }
        cache := cache[next.url := credentials];
        sent := Through(credentials);
      }
    }
  }

  /** The cache after the first `k` requests of a new rotator. */
  function CacheAfter(proxies: seq<Proxy>, k: nat): Cache
    requires |proxies| > 0
  {
    if k == 0 then map[]
    else Remember(CacheAfter(proxies, k - 1), proxies[Rotation.Position(0, k - 1, |proxies|)])
  }

  /** The `k`-th request goes out with the credentials of the proxy it was assigned to. */
  predicate OwnCredentials(proxies: seq<Proxy>, k: nat)
    requires |proxies| > 0
  {
    var p := proxies[Rotation.Position(0, k, |proxies|)];
    Carries(SentThrough(CacheAfter(proxies, k), p), p)
  }

  predicate AllParse(proxies: seq<Proxy>)
  {
    forall p | p in proxies :: Parse(p.url).Some?
  }

  /** The proxies have the same username and password, or each lacks one of them. */
  predicate SameLogin(p: Proxy, q: Proxy)
  {
    || (p.username == q.username && p.password == q.password)
    || ((p.username == [] || p.password == []) && (q.username == [] || q.password == []))
  }

  lemma LoginsAndCredentials(p: Proxy, q: Proxy)
    ensures SameLogin(p, q) <==> CredentialsOf(p) == CredentialsOf(q)
    ensures forall c :: Carries(Through(c), p) <==> c == CredentialsOf(p)
  {
  }

  /** Proxies that share a URL also share their credentials. */
  ghost predicate UrlDecidesCredentials(proxies: seq<Proxy>)
  {
    forall i, j | 0 <= i < j < |proxies| :: proxies[i].url == proxies[j].url ==>
      SameLogin(proxies[i], proxies[j])
  }

  lemma {:induction false} CachedBelongToAProxy(proxies: seq<Proxy>, k: nat, url: Bytes)
    requires |proxies| > 0 && url in CacheAfter(proxies, k)
    ensures exists i :: 0 <= i < |proxies| && proxies[i].url == url
                        && CacheAfter(proxies, k)[url] == CredentialsOf(proxies[i])
  {
    var at := Rotation.Position(0, k - 1, |proxies|);
    if url in CacheAfter(proxies, k - 1) {
      CachedBelongToAProxy(proxies, k - 1, url);
    } else {
      assert proxies[at].url == url;
    }
  }

  /** In the first round, the cached transport of a URL that parses is that of the first proxy with it. */
  lemma {:induction false} FirstRoundCachesTheFirst(proxies: seq<Proxy>, k: nat, i: nat)
    requires i < k <= |proxies| < Rotation.WRAP && Parse(proxies[i].url).Some?
    requires forall j | 0 <= j < i :: proxies[j].url != proxies[i].url
    ensures proxies[i].url in CacheAfter(proxies, k)
    ensures CacheAfter(proxies, k)[proxies[i].url] == CredentialsOf(proxies[i])
    decreases k
  {
    FirstRoundPosition(proxies, k - 1);
    if i < k - 1 {
      FirstRoundCachesTheFirst(proxies, k - 1, i);
    } else {
      NotCachedYet(proxies, k - 1, proxies[i].url);
    }
  }

  lemma {:induction false} NotCachedYet(proxies: seq<Proxy>, k: nat, url: Bytes)
    requires 0 < |proxies| < Rotation.WRAP && k <= |proxies|
    requires forall j | 0 <= j < k :: proxies[j].url != url
    ensures url !in CacheAfter(proxies, k)
  {
    if k > 0 {
      FirstRoundPosition(proxies, k - 1);
      NotCachedYet(proxies, k - 1, url);
    }
  }

  /** A URL that does not parse never gets a transport. */
  lemma {:induction false} BadUrlsAreNotCached(proxies: seq<Proxy>, k: nat, url: Bytes)
    requires |proxies| > 0 && Parse(url).None?
    ensures url !in CacheAfter(proxies, k)
  {
    if k > 0 { BadUrlsAreNotCached(proxies, k - 1, url); }
  }

  lemma FirstRoundPosition(proxies: seq<Proxy>, k: nat)
    requires k < |proxies| < Rotation.WRAP
    ensures Rotation.Position(0, k, |proxies|) == k
  {
    Division.Below(k, Rotation.WRAP);
    Division.Below(k, |proxies|);
  }

  lemma GoodProxiesSendTheirOwn(proxies: seq<Proxy>, k: nat)
    requires |proxies| > 0 && AllParse(proxies) && UrlDecidesCredentials(proxies)
    ensures OwnCredentials(proxies, k)
  {
    var p := proxies[Rotation.Position(0, k, |proxies|)];
    forall q ensures SameLogin(p, q) <==> CredentialsOf(p) == CredentialsOf(q) { LoginsAndCredentials(p, q); }
    LoginsAndCredentials(p, p);
    if p.url in CacheAfter(proxies, k) { CachedBelongToAProxy(proxies, k, p.url); }
  }

  lemma BadUrlFails(proxies: seq<Proxy>, i: nat)
    requires i < |proxies| < Rotation.WRAP && Parse(proxies[i].url).None?
    ensures !OwnCredentials(proxies, i)
  {
    FirstRoundPosition(proxies, i);
    BadUrlsAreNotCached(proxies, i, proxies[i].url);
  }

  lemma SharedUrlMixesCredentials(proxies: seq<Proxy>, i: nat, j: nat)
    requires i < j < |proxies| < Rotation.WRAP && Parse(proxies[i].url).Some?
    requires proxies[i].url == proxies[j].url && !SameLogin(proxies[i], proxies[j])
    ensures !OwnCredentials(proxies, i) || !OwnCredentials(proxies, j)
  {
    var first := FirstWith(proxies, proxies[i].url, 0, i);
    LoginsAndCredentials(proxies[i], proxies[j]);
    LoginsAndCredentials(proxies[j], proxies[i]);
    FirstRoundPosition(proxies, i);
    FirstRoundPosition(proxies, j);
    FirstRoundCachesTheFirst(proxies, j, first);
    if first < i { FirstRoundCachesTheFirst(proxies, i, first); }
  }

  /** Every request goes out, with the credentials of its own proxy, if and only if every stored URL parses
      and proxies that share a URL share their credentials: the cache's key leaves the credentials out. */
  lemma EveryRequestUsesItsOwnCredentialsIff(proxies: seq<Proxy>)
    requires 0 < |proxies| < Rotation.WRAP
    ensures (forall k: nat :: OwnCredentials(proxies, k)) <==> AllParse(proxies) && UrlDecidesCredentials(proxies)
  {
    if !AllParse(proxies) {
      var i :| 0 <= i < |proxies| && Parse(proxies[i].url).None?;
      BadUrlFails(proxies, i);
    } else if !UrlDecidesCredentials(proxies) {
      var i, j :| 0 <= i < j < |proxies| && proxies[i].url == proxies[j].url
                  && !SameLogin(proxies[i], proxies[j]);
      assert proxies[i] in proxies;
      SharedUrlMixesCredentials(proxies, i, j);
    } else {
      forall k: nat ensures OwnCredentials(proxies, k) { GoodProxiesSendTheirOwn(proxies, k); }
    }
  }

  /** For proxies that `NewProxy` accepted, a stored URL parses if and only if the host, as it was parsed,
      parses once more; without a percent sign it does. */
  lemma StoredUrlParsesIff(u: Bytes, p: Proxy)
    requires NewProxy(u) == Some(p)
    ensures Parse(p.url).Some? <==> ParseHost(Parse(Given(u)).value.host).Some?
    ensures '%' !in Parse(Given(u)).value.host ==> Parse(p.url).Some?
  {
    var raw := AcceptedParts(u, p);
    var x := Parse(Given(u)).value;
    HostBytesAreSafe(x.host);
    ParseAbsolute(x.scheme, x.host);
    CutWithout(x.host, '@');
    if '%' !in x.host { PlainHostParsesAgain(raw, x.host); }
  }

  /** An accepted proxy whose stored URL does not parse: given as http://u:p@%25, its requests all fail. */
  lemma AcceptedProxyCanFail(n: Bytes, p: Bytes) returns (u: Bytes, proxy: Proxy)
    ensures NewProxy(u) == Some(proxy) && proxy.username == n && proxy.password == p
    ensures !OwnCredentials([proxy], 0)
  {
    var http: Bytes := "http";
    assert http == Supported()[1];
    u := PercentHostIsAccepted(http, n, p);
    proxy := NewProxy(u).value;
    StoredUrlParsesIff(u, proxy);
    PercentAloneIsNoHost();
    BadUrlFails([proxy], 0);
  }

  function FirstWith(proxies: seq<Proxy>, url: Bytes, from: nat, i: nat): (first: nat)
    requires from <= i < |proxies| && proxies[i].url == url
    requires forall j | 0 <= j < from :: proxies[j].url != url
    ensures first <= i && proxies[first].url == url
    ensures forall j | 0 <= j < first :: proxies[j].url != url
    decreases i - from
  {
    if proxies[from].url == url then from else FirstWith(proxies, url, from + 1, i)
  }
}
