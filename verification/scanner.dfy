/** `ScannerService`: the per-call orchestration shared by `Scan`,
    `ThreadSafeScan` and `BasicScan`. Each call derives its key, consults the
    cache, and on a miss resolves templates, configures and runs the engine,
    then either stores one result or fails leaving the cache as it was.

    The file system, the engine and the clock are collaborators: a `World`
    supplies what reading a directory, stating a file and running the engine
    give, and `now` is the clock reading taken when a scan completes. Every
    interaction with a collaborator other than the logger is recorded as an
    `Effect`, in order. */
module Scanner {
  import opened Wrappers
  import opened GoText
  import opened ScanResults
  import opened ResultCache
  import opened CacheKeys
  import opened TemplateResolution
  import opened Findings
  import opened EngineConfig

  /** The basic template used when none is named. */
  const DefaultBasicTemplateName := "basic-test.yaml"

  /** The service: the cache its methods read (the unexported `cache` field;
      the exported `Cache` field is set from the same value at construction
      but never read by the scanner) and where its templates live. */
  datatype ScannerService = ScannerService(cache: Cache, templatesDir: string, basicTemplateName: string)

  /** What `os.Stat` says about a path: only a not-exist error matters. */
  datatype StatResult = Exists | NotExist | StatFailed(cause: string)

  /** The collaborators a scan call consults. */
  datatype World = World(
    readDir: string -> DirListing,
    stat: string -> StatResult,
    engine: EngineRequest -> EngineOutcome)

  /** One interaction with the cache, the file system or the engine. */
  datatype Effect =
    | CacheGet(key: string)
    | ReadDir(dir: string)
    | Stat(path: string)
    | Ran(request: EngineRequest)
    | CacheSet(key: string, result: ScanResult)

  /** The outcome of one call: the returned result, the error if any, the
      cache afterwards, and the effects performed. */
  datatype Call = Call(result: ScanResult, err: Option<ScanError>, cache: Cache, effects: seq<Effect>)

  /** `Scan` runs the synchronous engine; `ThreadSafeScan` the cancellable one. */
  datatype ScanMode = SingleShot | ThreadSafe

  /** `NewScannerService`: a nil cache becomes the no-op cache and an empty
      basic template name becomes the default. */
  function NewScannerService(cacheImpl: Option<Cache>, templatesDir: string, basicTemplateName: string): (s: ScannerService)
    ensures cacheImpl.None? ==> s.cache.NoopCache?
    ensures cacheImpl.Some? ==> s.cache == cacheImpl.value
    ensures s.templatesDir == templatesDir
    ensures s.basicTemplateName != ""
    ensures basicTemplateName != "" ==> s.basicTemplateName == basicTemplateName
    ensures basicTemplateName == "" ==> s.basicTemplateName == DefaultBasicTemplateName
  {
    var c := match cacheImpl case None => NoopCache case Some(c) => c;
    var name := if basicTemplateName == "" then DefaultBasicTemplateName else basicTemplateName;
    ScannerService(c, templatesDir, name)
  }

  /** No effect writes the cache. */
  predicate NoCacheWrite(effects: seq<Effect>)
  {
    forall i :: 0 <= i < |effects| ==> !effects[i].CacheSet?
  }

  /** The engine requests among `effects`, in order. */
  function EngineRequests(effects: seq<Effect>): (reqs: seq<EngineRequest>)
    ensures |reqs| <= |effects|
  {
    if |effects| == 0 then []
    else
      var rest := EngineRequests(effects[1..]);
      if effects[0].Ran? then [effects[0].request] + rest else rest
  }

  /** The hit branch: the stored value, verbatim and without error; the cache
      is untouched and the lookup is the only effect. */
  predicate ServedFromCache(before: Cache, key: string, c: Call)
  {
    Get(before, key).Some? && c == Call(Get(before, key).value, None, before, [CacheGet(key)])
  }

  /** A failed miss: the empty result with an error, the cache as it was, and
      no write among the effects. */
  predicate FailedWithoutWrite(before: Cache, key: string, c: Call)
  {
    && c.err.Some? && c.result == EmptyResult && c.cache == before
    && |c.effects| >= 2 && c.effects[0] == CacheGet(key)
    && NoCacheWrite(c.effects)
  }

  /** A successful miss: a fresh result for `target` stamped `now`, stored
      under `key` by the last effect and by no other, every other key of the
      cache unchanged. */
  predicate StoredUnderKey(before: Cache, key: string, target: string, now: nat, c: Call)
  {
    && c.err.None? && c.result.target == target && c.result.scanTime == Clock(now)
    && c.cache == Set(before, key, c.result)
    && |c.effects| >= 2 && c.effects[0] == CacheGet(key)
    && c.effects[|c.effects| - 1] == CacheSet(key, c.result)
    && NoCacheWrite(c.effects[..|c.effects| - 1])
  }

  /** The memoization discipline every scan call keeps for its key. */
  predicate Memoized(before: Cache, key: string, target: string, now: nat, c: Call)
  {
    && (Get(before, key).Some? ==> ServedFromCache(before, key, c))
    && (Get(before, key).None? ==>
          FailedWithoutWrite(before, key, c) || StoredUnderKey(before, key, target, now, c))
  }

  /** The end of a miss: hand `request` to the engine and, if it completes,
      collect its events through the callback and store the result. */
  function Finish(before: Cache, key: string, target: string, now: nat,
                  request: EngineRequest, outcome: EngineOutcome, effects: seq<Effect>): (c: Call)
    requires |effects| >= 1 && effects[0] == CacheGet(key) && NoCacheWrite(effects)
    ensures FailedWithoutWrite(before, key, c) || StoredUnderKey(before, key, target, now, c)
    ensures c.err.None? <==> outcome.Completed?
    ensures outcome.Failed? ==> c.err == Some(EngineFailed(outcome.cause))
    ensures outcome.Completed? ==> c.result.findings == outcome.events
    ensures EngineRequests(c.effects) == EngineRequests(effects) + [request]
  {
    var ran := effects + [Ran(request)];
    assert EngineRequests(ran) == EngineRequests(effects) + [request] by {
      EngineRequestsAppend(effects, [Ran(request)]);
    }
    match outcome
    case Failed(cause) =>
      Call(EmptyResult, Some(EngineFailed(cause)), before, ran)
    case Completed(events) =>
      var result := ScanResult(target, Deliver([], events), Clock(now));
      var done := ran + [CacheSet(key, result)];
      assert done[..|done| - 1] == ran;
      EngineRequestsAppend(ran, [CacheSet(key, result)]);
      Call(result, None, Set(before, key, result), done)
  }

  /** Engine requests of concatenated effect lists concatenate. */
  lemma {:induction false} EngineRequestsAppend(a: seq<Effect>, b: seq<Effect>)
    ensures EngineRequests(a + b) == EngineRequests(a) + EngineRequests(b)
    decreases |a|
  {
    if |a| > 0 {
      var ab := a + b;
      assert ab[0] == a[0];
      assert ab[1..] == a[1..] + b;
      EngineRequestsAppend(a[1..], b);
      var head := if a[0].Ran? then [a[0].request] else [];
      assert EngineRequests(ab) == head + EngineRequests(a[1..] + b);
      assert EngineRequests(a) == head + EngineRequests(a[1..]);
      assert head + (EngineRequests(a[1..]) + EngineRequests(b))
          == (head + EngineRequests(a[1..])) + EngineRequests(b);
    } else {
      assert a + b == b;
    }
  }

  /** The request `Scan` or `ThreadSafeScan` hands the engine: the given
      options and the one target, to the mode's engine; the synchronous engine
      loads its targets without HTTP probing and loads all templates first. */
  function ScanRequest(mode: ScanMode, options: seq<SdkOption>, target: string): (request: EngineRequest)
    ensures RunsModeEngine(mode, request)
    ensures request.options == options && request.targets == [target]
    ensures request.Synchronous? ==> !request.probeHttp && request.loadsAllTemplates
  {
    match mode
    case SingleShot => Synchronous(options, [target], false, true)
    case ThreadSafe => Cancellable(options, [target])
  }

  /** The engine kind each mode runs. */
  predicate RunsModeEngine(mode: ScanMode, request: EngineRequest)
  {
    mode == SingleShot <==> request.Synchronous?
  }

  /** The effects of a miss before the engine: the lookup, then the directory
      read when no template IDs are given. */
  function MissPrologue(key: string, templateIDs: seq<string>, dir: string): (effects: seq<Effect>)
    ensures |effects| >= 1 && effects[0] == CacheGet(key)
    ensures NoCacheWrite(effects)
    ensures EngineRequests(effects) == []
    ensures ReadDir(dir) in effects <==> |templateIDs| == 0
  {
    [CacheGet(key)] + (if |templateIDs| == 0 then [ReadDir(dir)] else [])
  }

  /** The miss path of `Scan` and `ThreadSafeScan`: resolve templates, then
      configure and run the mode's engine. */
  function ScanMiss(mode: ScanMode, s: ScannerService, w: World, now: nat, key: string,
                    target: string, severity: string, protocols: string,
                    templateIDs: seq<string>): (c: Call)
    ensures FailedWithoutWrite(s.cache, key, c) || StoredUnderKey(s.cache, key, target, now, c)
    ensures forall r :: r in EngineRequests(c.effects) ==> RunsModeEngine(mode, r)
  {
    var listed := MissPrologue(key, templateIDs, s.templatesDir);
    match LoadTemplates(s.templatesDir, templateIDs, w.readDir(s.templatesDir))
    case Failure(e) =>
      Call(EmptyResult, Some(e), s.cache, listed)
    case Success(paths) =>
      var request := ScanRequest(mode, ScanOptions(paths, severity, protocols), target);
      Finish(s.cache, key, target, now, request, w.engine(request), listed)
  }

  /** The body shared by `Scan` and `ThreadSafeScan`. */
  function FilteredScan(mode: ScanMode, s: ScannerService, w: World, now: nat,
                        target: string, severity: string, protocols: string,
                        templateIDs: seq<string>): (c: Call)
    ensures Memoized(s.cache, ScanKey(target, severity, protocols, templateIDs), target, now, c)
    ensures forall r :: r in EngineRequests(c.effects) ==> RunsModeEngine(mode, r)
  {
    var key := ScanKey(target, severity, protocols, templateIDs);
    match Get(s.cache, key)
    case Some(hit) => Call(hit, None, s.cache, [CacheGet(key)])
    case None => ScanMiss(mode, s, w, now, key, target, severity, protocols, templateIDs)
  }

  /** `Scan`. */
  function Scan(s: ScannerService, w: World, now: nat,
                target: string, severity: string, protocols: string,
                templateIDs: seq<string>): (c: Call)
    ensures Memoized(s.cache, ScanKey(target, severity, protocols, templateIDs), target, now, c)
    ensures forall r :: r in EngineRequests(c.effects) ==> r.Synchronous?
  {
    FilteredScan(SingleShot, s, w, now, target, severity, protocols, templateIDs)
  }

  /** `ThreadSafeScan`: the same key and cache logic as `Scan`, with the
      cancellable engine; a cancelled run is an engine failure. */
  function ThreadSafeScan(s: ScannerService, w: World, now: nat,
                          target: string, severity: string, protocols: string,
                          templateIDs: seq<string>): (c: Call)
    ensures Memoized(s.cache, ScanKey(target, severity, protocols, templateIDs), target, now, c)
    ensures forall r :: r in EngineRequests(c.effects) ==> r.Cancellable?
  {
    FilteredScan(ThreadSafe, s, w, now, target, severity, protocols, templateIDs)
  }

  /** `BasicScan`: one fixed template, no filters, HTTP probing on. */
  function BasicScan(s: ScannerService, w: World, now: nat, target: string): (c: Call)
    ensures Memoized(s.cache, BasicKey(target), target, now, c)
  {
    var key := BasicKey(target);
    match Get(s.cache, key)
    case Some(hit) => Call(hit, None, s.cache, [CacheGet(key)])
    case None =>
      var path := PathJoin(s.templatesDir, s.basicTemplateName);
      var checked := [CacheGet(key), Stat(path)];
      if w.stat(path) == NotExist then
        Call(EmptyResult, Some(BasicTemplateMissing(path)), s.cache, checked)
      else
        var request := Synchronous(BasicOptions(path), [target], true, false);
        Finish(s.cache, key, target, now, request, w.engine(request), checked)
  }

  /** `GetAll`: the cache's own listing, one result per stored key in the
      cache's key order. */
  ghost function GetAll(s: ScannerService): (all: seq<ScanResult>)
    ensures s.cache.NoopCache? ==> all == []
    ensures s.cache.MapCache? ==> |all| == |s.cache.entries|
    ensures all == ResultCache.GetAll(s.cache)
    ensures forall k :: Get(s.cache, k).Some? ==> Get(s.cache, k).value in all
  {
    ResultCache.GetAll(s.cache)
  }
}
