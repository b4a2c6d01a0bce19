/** `DoJob` with and without a cache. */
module CachedJobs {
  import opened Fetching
  import opened Wrappers

  datatype Document = Document(text: string)

  datatype Parsed = ParseError(text: string) | Doc(document: Document)

  datatype Data = Data(text: string)

  /** How a job's own processing ends. */
  datatype Processed = Value(data: Data, next: seq<CrawlJob>) | ProcessError(text: string) | Panic

  datatype CrawlJob = CrawlJob(id: int, key: string, retry: Job, processOnFetchError: bool)

  datatype JobError = FetchFailed(error: Error) | ParseFailed(text: string) | ProcessFailed(text: string) | Panicked

  datatype Outcome = Success(data: Data, next: seq<CrawlJob>) | Failure(error: JobError)

  /** The world the jobs run in: the responses to a job's attempts, the parser if there is one, and
      the processing of a response, with its document if it was parsed. */
  datatype World = World(
    fetch: CrawlJob -> nat -> Response,
    parser: Option<string -> Parsed>,
    process: (CrawlJob, Response, Option<Document>) -> Processed)

  function Ended(p: Processed): Outcome
  {
    match p
    case Value(data, next) => Success(data, next)
    case ProcessError(text) => Failure(ProcessFailed(text))
    case Panic => Failure(Panicked)
  }

  /** Parsing, unless the response has an error, and processing. */
  function Handle(w: World, job: CrawlJob, r: Response): Outcome
  {
    if r.error == None && w.parser.Some? then
      match w.parser.value(r.body)
      case ParseError(text) => Failure(ParseFailed(text))
      case Doc(d) => Ended(w.process(job, r, Some(d)))
    else Ended(w.process(job, r, None))
  }

  function Fetched(w: World, job: CrawlJob): Response
  {
    FetchResult(job.retry, w.fetch(job))
  }

  predicate GivesUp(job: CrawlJob, r: Response) { !job.processOnFetchError && r.error != None }

  /** `DoJob` without a cache. */
  function Uncached(w: World, job: CrawlJob): Outcome
  {
    var r := Fetched(w, job);
    if GivesUp(job, r) then Failure(FetchFailed(r.error.value)) else Handle(w, job, r)
  }

  /** The fetch of this job cancels scraping. */
  predicate Stops(w: World, job: CrawlJob)
  {
    job.retry.policy == STOP_SCRAPING && !Accepts(job.retry, w.fetch(job)(0))
  }

  type Cache = map<string, Response>

  /** What the cache does on one job: a stored entry may not be found, and storing may fail. */
  datatype Luck = Luck(misses: bool, setFails: bool)

  predicate Hit(cache: Cache, job: CrawlJob, luck: Luck) { job.key in cache && !luck.misses }

  function CacheAfter(w: World, cache: Cache, job: CrawlJob, luck: Luck): Cache
  {
    if !Hit(cache, job, luck) && Fetched(w, job).error == None && !luck.setFails
    then cache[job.key := Fetched(w, job)] else cache
  }

  /** `DoJob` with a cache. */
  function Cached(w: World, cache: Cache, job: CrawlJob, luck: Luck): Outcome
  {
    if Hit(cache, job, luck) then Handle(w, job, cache[job.key]) else Uncached(w, job)
  }

  predicate CachedStops(w: World, cache: Cache, job: CrawlJob, luck: Luck)
  {
    !Hit(cache, job, luck) && Stops(w, job)
  }

  /** The job's processing gets the response, with the document that the parser makes of its body if there
      is a parser and the response has no error, and the outcome is what processing ends with. Without a
      document, because parsing failed, nothing is processed. */
  ghost predicate IsProcessed(w: World, job: CrawlJob, r: Response, outcome: Outcome)
  {
    if r.error.None? && w.parser.Some? && w.parser.value(r.body).ParseError? then
      outcome == Failure(ParseFailed(w.parser.value(r.body).text))
    else
      var document :=
        if r.error.None? && w.parser.Some? then Some(w.parser.value(r.body).document) else None;
      var p := w.process(job, r, document);
      && (p.Value? ==> outcome == Success(p.data, p.next))
      && (p.ProcessError? ==> outcome == Failure(ProcessFailed(p.text)))
      && (p.Panic? ==> outcome == Failure(Panicked))
  }

  /** The part of the scraper that `DoJob` uses. */
  class ScrapeMate {
    const world: World
    const hasCache: bool
    var cache: Cache
    var cancelled: bool

    constructor (world: World, hasCache: bool)
      ensures this.world == world && this.hasCache == hasCache && cache == map[] && !cancelled
    {
      this.world, this.hasCache := world, hasCache;
      cache, cancelled := map[], false;
    }

    /** The outcome, the cache and the cancellation, in the words of the cached or uncached `DoJob` and in so
        many words: `r` is the response that is found in the cache or fetched. */
    method DoJob(job: CrawlJob, luck: Luck) returns (outcome: Outcome)
      modifies this
      ensures outcome == if hasCache then Cached(world, old(cache), job, luck) else Uncached(world, job)
      ensures cache == if hasCache then CacheAfter(world, old(cache), job, luck) else old(cache)
      ensures cancelled <==> old(cancelled)
                             || (if hasCache then CachedStops(world, old(cache), job, luck) else Stops(world, job))
      ensures var found := hasCache && job.key in old(cache) && !luck.misses;
              var r := if found then old(cache)[job.key] else FetchResult(job.retry, world.fetch(job));
              && (if !found && r.error.Some? && !job.processOnFetchError
                  then outcome == Failure(FetchFailed(r.error.value))
                  else IsProcessed(world, job, r, outcome))
              && cache == (if hasCache && !found && r.error.None? && !luck.setFails
                           then old(cache)[job.key := r] else old(cache))
              && (cancelled <==> old(cancelled)
                                 || (!found && job.retry.policy == 3 && !Passes(job.retry, world.fetch(job)(0))))
    {
      var resp: Response;
      if hasCache && job.key in cache && !luck.misses {
        resp := cache[job.key];
      } else {
        var attempts, sleeps, stop;
        resp, attempts, sleeps, stop := DoFetch(job.retry, world.fetch(job));
        cancelled := cancelled || stop;
        WordsAgree(job.retry, world.fetch(job)(0));
        if !job.processOnFetchError && resp.error != None { return Failure(FetchFailed(resp.error.value)); }
        if resp.error == None && hasCache && !luck.setFails { cache := cache[job.key := resp]; }
      }
      var document := None;
      if resp.error == None && world.parser.Some? {
        match world.parser.value(resp.body) {
          case ParseError(text) => return Failure(ParseFailed(text));
          case Doc(d) => document := Some(d);
        }
      }
      match world.process(job, resp, document) {
        case Value(data, next) => outcome := Success(data, next);
        case ProcessError(text) => outcome := Failure(ProcessFailed(text));
        case Panic => outcome := Failure(Panicked);
      }
    }
  }

  // Whole runs.

  function Outcomes(w: World, cache: Cache, jobs: seq<CrawlJob>, luck: seq<Luck>): (r: seq<Outcome>)
    requires |luck| == |jobs|
    ensures |r| == |jobs|
    decreases |jobs|
  {
    if jobs == [] then []
    else [Cached(w, cache, jobs[0], luck[0])]
         + Outcomes(w, CacheAfter(w, cache, jobs[0], luck[0]), jobs[1..], luck[1..])
  }

  function CacheAtEnd(w: World, cache: Cache, jobs: seq<CrawlJob>, luck: seq<Luck>): Cache
    requires |luck| == |jobs|
    decreases |jobs|
  {
    if jobs == [] then cache else CacheAtEnd(w, CacheAfter(w, cache, jobs[0], luck[0]), jobs[1..], luck[1..])
  }

  function StopsDuring(w: World, cache: Cache, jobs: seq<CrawlJob>, luck: seq<Luck>): seq<bool>
    requires |luck| == |jobs|
    decreases |jobs|
  {
    if jobs == [] then []
    else [CachedStops(w, cache, jobs[0], luck[0])]
         + StopsDuring(w, CacheAfter(w, cache, jobs[0], luck[0]), jobs[1..], luck[1..])
  }

  /** Every stored response has no error and was accepted by a job of the run that has its key. */
  ghost predicate StoredByARun(cache: Cache, done: seq<CrawlJob>)
  {
    forall key | key in cache ::
      cache[key].error == None && exists j :: j in done && j.key == key && Accepts(j.retry, cache[key])
  }

  /** Whatever the world, the cache never holds an error or a rejected response. */
  lemma {:induction false} StoredResponsesWereAccepted(
      w: World, cache: Cache, done: seq<CrawlJob>, jobs: seq<CrawlJob>, luck: seq<Luck>)
    requires |luck| == |jobs| && StoredByARun(cache, done)
    ensures StoredByARun(CacheAtEnd(w, cache, jobs, luck), done + jobs)
    decreases |jobs|
  {
    if jobs == [] {
      assert done + jobs == done;
    } else {
      var cache', done' := CacheAfter(w, cache, jobs[0], luck[0]), done + [jobs[0]];
      forall key | key in cache'
        ensures cache'[key].error == None
        ensures exists j :: j in done' && j.key == key && Accepts(j.retry, cache'[key])
      {
        if key in cache && cache'[key] == cache[key] {
          var j :| j in done && j.key == key && Accepts(j.retry, cache[key]);
          assert j in done';
        } else {
          assert jobs[0] in done' && jobs[0].key == key;
        }
      }
      StoredResponsesWereAccepted(w, cache', done', jobs[1..], luck[1..]);
      assert done' + jobs[1..] == done + jobs;
    }
  }

  // When the cache cannot be seen.

  /** In this world every attempt of every one of the jobs yields the page of its key. */
  ghost predicate Serves(w: World, page: string -> Response, jobs: seq<CrawlJob>)
  {
    forall job: CrawlJob, k: nat | job in jobs :: w.fetch(job)(k) == page(job.key)
  }

  /** The first job accepts an error-free page that the second, with the same key, rejects. */
  predicate Disagree(page: string -> Response, a: CrawlJob, b: CrawlJob)
  {
    && a.key == b.key && page(a.key).error == None
    && Accepts(a.retry, page(a.key)) && !Accepts(b.retry, page(b.key))
  }

  /** On every error-free page, acceptance depends on the key only. */
  ghost predicate Agree(page: string -> Response, jobs: seq<CrawlJob>)
  {
    forall a, b | a in jobs && b in jobs :: !Disagree(page, a, b)
  }

  /** The stored responses are error-free pages that every job with their key accepts. */
  ghost predicate SoundFor(cache: Cache, page: string -> Response, jobs: seq<CrawlJob>)
  {
    && (forall key | key in cache :: cache[key] == page(key) && cache[key].error == None)
    && (forall job | job in jobs && job.key in cache :: Accepts(job.retry, page(job.key)))
  }

  lemma FetchedIsThePage(w: World, page: string -> Response, jobs: seq<CrawlJob>, job: CrawlJob)
    requires Serves(w, page, jobs) && job in jobs
    ensures Fetched(w, job) == Finished(job.retry, page(job.key))
    ensures Stops(w, job) <==> job.retry.policy == STOP_SCRAPING && !Accepts(job.retry, page(job.key))
  {
    assert w.fetch(job)(EndingAttempt(job.retry, w.fetch(job), 0)) == page(job.key);
    assert w.fetch(job)(0) == page(job.key);
  }

  /** One job: the cache changes neither the outcome nor whether scraping stops, and stays sound. */
  lemma CachingAJobChangesNothing(
      w: World, page: string -> Response, jobs: seq<CrawlJob>, cache: Cache, job: CrawlJob, luck: Luck)
    requires Serves(w, page, jobs) && Agree(page, jobs) && SoundFor(cache, page, jobs) && job in jobs
    ensures Cached(w, cache, job, luck) == Uncached(w, job)
    ensures CachedStops(w, cache, job, luck) == Stops(w, job)
    ensures SoundFor(CacheAfter(w, cache, job, luck), page, jobs)
  {
    FetchedIsThePage(w, page, jobs, job);
    var cache' := CacheAfter(w, cache, job, luck);
    forall other | other in jobs && other.key in cache' ensures Accepts(other.retry, page(other.key)) {
      if other.key !in cache { assert !Disagree(page, job, other); }
    }
  }

  function UncachedOutcomes(w: World, run: seq<CrawlJob>): seq<Outcome>
  {
    seq(|run|, i requires 0 <= i < |run| => Uncached(w, run[i]))
  }

  function UncachedStops(w: World, run: seq<CrawlJob>): seq<bool>
  {
    seq(|run|, i requires 0 <= i < |run| => Stops(w, run[i]))
  }

  ghost predicate DrawnFrom(run: seq<CrawlJob>, jobs: seq<CrawlJob>)
  {
    forall j | j in run :: j in jobs
  }

  /** For every sequence of jobs, in any order and with repetitions, and every pattern of misses and failed
      stores, running with a cache gives the outcomes, and the cancellations, of running without one. */
  lemma {:induction false} CachingIsTransparent(
      w: World, page: string -> Response, jobs: seq<CrawlJob>, cache: Cache, run: seq<CrawlJob>, luck: seq<Luck>)
    requires Serves(w, page, jobs) && Agree(page, jobs) && SoundFor(cache, page, jobs)
    requires DrawnFrom(run, jobs) && |luck| == |run|
    ensures Outcomes(w, cache, run, luck) == UncachedOutcomes(w, run)
    ensures StopsDuring(w, cache, run, luck) == UncachedStops(w, run)
    ensures SoundFor(CacheAtEnd(w, cache, run, luck), page, jobs)
    decreases |run|
  {
    if run != [] {
      CachingAJobChangesNothing(w, page, jobs, cache, run[0], luck[0]);
      CachingIsTransparent(w, page, jobs, CacheAfter(w, cache, run[0], luck[0]), run[1..], luck[1..]);
    }
  }

  /** Every site can be served, with any parser and any processing. */
  lemma EverySiteCanBeServed(
      page: string -> Response, jobs: seq<CrawlJob>, parser: Option<string -> Parsed>,
      process: (CrawlJob, Response, Option<Document>) -> Processed)
    ensures exists w: World :: Serves(w, page, jobs) && w.parser == parser && w.process == process
  {
    var w := World((j: CrawlJob) => (k: nat) => page(j.key), parser, process);
    assert Serves(w, page, jobs);
  }

  /** Jobs that use the default check agree on every site, whatever else they differ in. */
  lemma DefaultChecksAgree(page: string -> Response, jobs: seq<CrawlJob>)
    requires forall j | j in jobs :: j.retry.check == None
    ensures Agree(page, jobs)
  {
  }

  /** Nobody can tell from the outcomes whether jobs of this list run with a cache. */
  ghost predicate CacheIsInvisible(page: string -> Response, jobs: seq<CrawlJob>)
  {
    forall w: World, run: seq<CrawlJob>, luck: seq<Luck> |
      Serves(w, page, jobs) && DrawnFrom(run, jobs) && |luck| == |run| ::
      Outcomes(w, map[], run, luck) == UncachedOutcomes(w, run)
  }

  /** For every site and every list of jobs: no parser, processing, order, miss or failed store makes a new
      cache visible if and only if no job accepts an error-free page that another job with the same key
      rejects; and then the cache does not change when scraping stops either. */
  lemma CacheIsInvisibleIff(page: string -> Response, jobs: seq<CrawlJob>)
    ensures CacheIsInvisible(page, jobs) <==> Agree(page, jobs)
    ensures Agree(page, jobs) ==>
              forall w: World, run: seq<CrawlJob>, luck: seq<Luck> |
                Serves(w, page, jobs) && DrawnFrom(run, jobs) && |luck| == |run| ::
                StopsDuring(w, map[], run, luck) == UncachedStops(w, run)
  {
    if Agree(page, jobs) {
      forall w: World, run: seq<CrawlJob>, luck: seq<Luck> |
        Serves(w, page, jobs) && DrawnFrom(run, jobs) && |luck| == |run|
        ensures Outcomes(w, map[], run, luck) == UncachedOutcomes(w, run)
        ensures StopsDuring(w, map[], run, luck) == UncachedStops(w, run)
      {
        CachingIsTransparent(w, page, jobs, map[], run, luck);
      }
    } else {
      var a, b :| a in jobs && b in jobs && Disagree(page, a, b);
      DisagreementIsVisible(page, jobs, a, b);
    }
  }

  /** A world in which errors are all that processing looks at. */
  function ErrorsShow(page: string -> Response): World
  {
    World((j: CrawlJob) => (k: nat) => page(j.key), None,
          (j: CrawlJob, r: Response, d: Option<Document>) =>
            if r.error == None then Value(Data(""), []) else ProcessError(""))
  }

  /** The response that the first job leaves in the cache spares the second the rejection. */
  lemma DisagreementIsVisible(page: string -> Response, jobs: seq<CrawlJob>, a: CrawlJob, b: CrawlJob)
    requires a in jobs && b in jobs && Disagree(page, a, b)
    ensures !CacheIsInvisible(page, jobs)
  {
    var w, run, luck := ErrorsShow(page), [a, b], [Luck(false, false), Luck(false, false)];
    assert Serves(w, page, jobs);
    FetchedIsThePage(w, page, jobs, a);
    FetchedIsThePage(w, page, jobs, b);
    var cache := CacheAfter(w, map[], a, luck[0]);
    assert run[1..] == [b] && luck[1..] == [luck[1]];
    assert Outcomes(w, cache, [b], luck[1..])[0] == Cached(w, cache, b, luck[1]) == Success(Data(""), []);
    assert Outcomes(w, map[], run, luck)[1] != Uncached(w, b) == UncachedOutcomes(w, run)[1];
  }
}
