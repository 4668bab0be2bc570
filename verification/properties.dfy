/** Properties of the scanner that relate a call to its collaborators'
    answers, or one call to the next. */
module ScannerProperties {
  import opened Wrappers
  import opened GoText
  import opened ScanResults
  import opened ResultCache
  import opened CacheKeys
  import opened TemplateResolution
  import opened EngineConfig
  import opened Scanner

  /** A miss of `Scan` or `ThreadSafeScan` whose templates do not resolve
      fails with the resolution error before any engine is built. */
  lemma ResolutionFailureStopsScan(mode: ScanMode, s: ScannerService, w: World, now: nat,
                                   target: string, severity: string, protocols: string, ids: seq<string>)
    requires Get(s.cache, ScanKey(target, severity, protocols, ids)).None?
    requires LoadTemplates(s.templatesDir, ids, w.readDir(s.templatesDir)).Failure?
    ensures var c := FilteredScan(mode, s, w, now, target, severity, protocols, ids);
      && c.err == Some(LoadTemplates(s.templatesDir, ids, w.readDir(s.templatesDir)).error)
      && c.cache == s.cache
      && EngineRequests(c.effects) == []
      && c.effects == [CacheGet(ScanKey(target, severity, protocols, ids)), ReadDir(s.templatesDir)]
  {
    var key := ScanKey(target, severity, protocols, ids);
    assert FilteredScan(mode, s, w, now, target, severity, protocols, ids)
        == ScanMiss(mode, s, w, now, key, target, severity, protocols, ids);
  }

  /** A miss of `Scan` or `ThreadSafeScan` whose templates resolve ends by
      handing one request to the engine: the mode's request for the scan
      options of the resolved templates. */
  lemma ResolvedScanFinishes(mode: ScanMode, s: ScannerService, w: World, now: nat,
                             target: string, severity: string, protocols: string, ids: seq<string>)
    requires Get(s.cache, ScanKey(target, severity, protocols, ids)).None?
    requires LoadTemplates(s.templatesDir, ids, w.readDir(s.templatesDir)).Success?
    ensures var key := ScanKey(target, severity, protocols, ids);
      var paths := LoadTemplates(s.templatesDir, ids, w.readDir(s.templatesDir)).value;
      var req := ScanRequest(mode, ScanOptions(paths, severity, protocols), target);
      FilteredScan(mode, s, w, now, target, severity, protocols, ids)
        == Finish(s.cache, key, target, now, req, w.engine(req), MissPrologue(key, ids, s.templatesDir))
  {
    var key := ScanKey(target, severity, protocols, ids);
    assert FilteredScan(mode, s, w, now, target, severity, protocols, ids)
        == ScanMiss(mode, s, w, now, key, target, severity, protocols, ids);
  }

  /** A resolved miss runs the engine exactly once: on the target alone, in
      the mode's engine, with the resolved templates, the update check off
      and a filter exactly when a filter string is non-empty. */
  lemma ScanConfiguresEngine(mode: ScanMode, s: ScannerService, w: World, now: nat,
                             target: string, severity: string, protocols: string, ids: seq<string>)
    requires Get(s.cache, ScanKey(target, severity, protocols, ids)).None?
    requires LoadTemplates(s.templatesDir, ids, w.readDir(s.templatesDir)).Success?
    ensures var c := FilteredScan(mode, s, w, now, target, severity, protocols, ids);
      var paths := LoadTemplates(s.templatesDir, ids, w.readDir(s.templatesDir)).value;
      && |EngineRequests(c.effects)| == 1
      && var req := EngineRequests(c.effects)[0];
      && req.targets == [target]
      && (mode == SingleShot <==> req.Synchronous?)
      && (req.Synchronous? ==> !req.probeHttp && req.loadsAllTemplates)
      && UpdateCheckDisabled(req.options)
      && SelectsTemplates(req.options, paths)
      && (HasTemplateFilter(req.options) <==> severity != "" || protocols != "")
  {
    ResolvedScanFinishes(mode, s, w, now, target, severity, protocols, ids);
  }

  /** A resolved miss succeeds exactly when the engine completes; its
      findings are then the delivered events, and an engine error is passed
      on verbatim. */
  lemma ScanFollowsEngine(mode: ScanMode, s: ScannerService, w: World, now: nat,
                          target: string, severity: string, protocols: string, ids: seq<string>)
    requires Get(s.cache, ScanKey(target, severity, protocols, ids)).None?
    requires LoadTemplates(s.templatesDir, ids, w.readDir(s.templatesDir)).Success?
    ensures var c := FilteredScan(mode, s, w, now, target, severity, protocols, ids);
      && |EngineRequests(c.effects)| == 1
      && var out := w.engine(EngineRequests(c.effects)[0]);
      && (c.err.None? <==> out.Completed?)
      && (out.Completed? ==> c.result.findings == out.events)
      && (out.Failed? ==> c.err == Some(EngineFailed(out.cause)))
  {
    ResolvedScanFinishes(mode, s, w, now, target, severity, protocols, ids);
  }

  /** With explicit template IDs the engine is given exactly those IDs joined
      to the template directory, whether or not such files exist, and the
      directory is never listed. */
  lemma ExplicitIdsGoStraightToEngine(mode: ScanMode, s: ScannerService, w: World, now: nat,
                                      target: string, severity: string, protocols: string, ids: seq<string>)
    requires |ids| > 0
    requires Get(s.cache, ScanKey(target, severity, protocols, ids)).None?
    ensures var c := FilteredScan(mode, s, w, now, target, severity, protocols, ids);
      && ReadDir(s.templatesDir) !in c.effects
      && |EngineRequests(c.effects)| == 1
      && SelectsTemplates(EngineRequests(c.effects)[0].options, IdPaths(s.templatesDir, ids))
  {
    ScanConfiguresEngine(mode, s, w, now, target, severity, protocols, ids);
  }

  /** A `BasicScan` miss whose template file does not exist fails naming the
      path, and no engine is built. */
  lemma MissingBasicTemplateStopsScan(s: ScannerService, w: World, now: nat, target: string)
    requires Get(s.cache, BasicKey(target)).None?
    requires w.stat(PathJoin(s.templatesDir, s.basicTemplateName)) == NotExist
    ensures var c := BasicScan(s, w, now, target);
      && c.err == Some(BasicTemplateMissing(PathJoin(s.templatesDir, s.basicTemplateName)))
      && EngineRequests(c.effects) == []
  {
  }

  /** Any other `BasicScan` miss (the file exists, or stating it failed for
      another reason) runs the synchronous engine once with HTTP probing,
      exactly the basic template, no filter and no `LoadAllTemplates`; it
      succeeds exactly when the engine completes and otherwise returns the
      engine's error unchanged. */
  lemma BasicScanRunsEngineOnce(s: ScannerService, w: World, now: nat, target: string)
    requires Get(s.cache, BasicKey(target)).None?
    requires w.stat(PathJoin(s.templatesDir, s.basicTemplateName)) != NotExist
    ensures var c := BasicScan(s, w, now, target);
      && |EngineRequests(c.effects)| == 1
      && var req := EngineRequests(c.effects)[0];
      && req.Synchronous? && req.targets == [target]
      && req.probeHttp && !req.loadsAllTemplates
      && UpdateCheckDisabled(req.options)
      && SelectsTemplates(req.options, [PathJoin(s.templatesDir, s.basicTemplateName)])
      && !HasTemplateFilter(req.options)
      && (c.err.None? <==> w.engine(req).Completed?)
      && (w.engine(req).Completed? ==> c.result.findings == w.engine(req).events)
      && (w.engine(req).Failed? ==> c.err == Some(EngineFailed(w.engine(req).cause)))
  {
    var path := PathJoin(s.templatesDir, s.basicTemplateName);
    var req := Synchronous(BasicOptions(path), [target], true, false);
    assert EngineRequests([CacheGet(BasicKey(target)), Stat(path)]) == [] by {
      assert forall r :: Ran(r) !in [CacheGet(BasicKey(target)), Stat(path)];
    }
    assert EngineRequests(BasicScan(s, w, now, target).effects) == [req];
  }

  /** After a successful `Scan` on a map-backed cache, the same call again is
      served from the cache whatever the collaborators would now answer: the
      same result, no engine run, no further change. */
  lemma RepeatedScanHits(s: ScannerService, w1: World, w2: World, now1: nat, now2: nat,
                         target: string, severity: string, protocols: string, ids: seq<string>)
    requires s.cache.MapCache?
    ensures var c1 := Scan(s, w1, now1, target, severity, protocols, ids);
      var c2 := Scan(s.(cache := c1.cache), w2, now2, target, severity, protocols, ids);
      c1.err.None? ==>
      && c2.result == c1.result && c2.err.None? && c2.cache == c1.cache
      && c2.effects == [CacheGet(ScanKey(target, severity, protocols, ids))]
  {
    var key := ScanKey(target, severity, protocols, ids);
    var c1 := Scan(s, w1, now1, target, severity, protocols, ids);
    if Get(s.cache, key).None? && c1.err.None? {
      assert StoredUnderKey(s.cache, key, target, now1, c1);
      assert Get(c1.cache, key) == Some(c1.result);
    }
  }

  /** The same for `BasicScan`. */
  lemma RepeatedBasicScanHits(s: ScannerService, w1: World, w2: World, now1: nat, now2: nat, target: string)
    requires s.cache.MapCache?
    ensures var c1 := BasicScan(s, w1, now1, target);
      var c2 := BasicScan(s.(cache := c1.cache), w2, now2, target);
      c1.err.None? ==>
      && c2.result == c1.result && c2.err.None? && c2.cache == c1.cache
      && c2.effects == [CacheGet(BasicKey(target))]
  {
    var key := BasicKey(target);
    var c1 := BasicScan(s, w1, now1, target);
    if Get(s.cache, key).None? && c1.err.None? {
      assert StoredUnderKey(s.cache, key, target, now1, c1);
      assert Get(c1.cache, key) == Some(c1.result);
    }
  }

  /** After a failed call the key is still absent: a later lookup misses. */
  lemma FailedScanStaysUncached(s: ScannerService, w: World, now: nat,
                                target: string, severity: string, protocols: string, ids: seq<string>)
    ensures var c := Scan(s, w, now, target, severity, protocols, ids);
      c.err.Some? ==>
      && Get(c.cache, ScanKey(target, severity, protocols, ids)).None?
      && c.cache == s.cache
      && c.result.findings == []
  {
  }

  /** A scan changes no key but its own. */
  lemma ScanLeavesOtherKeys(s: ScannerService, w: World, now: nat,
                            target: string, severity: string, protocols: string, ids: seq<string>, other: string)
    requires other != ScanKey(target, severity, protocols, ids)
    ensures Get(Scan(s, w, now, target, severity, protocols, ids).cache, other) == Get(s.cache, other)
  {
  }

  /** With caching disabled every call misses and the cache stays disabled;
      a successful call still writes, and the write is discarded. */
  lemma NoopCacheNeverServes(s: ScannerService, w: World, now: nat,
                             target: string, severity: string, protocols: string, ids: seq<string>)
    requires s.cache.NoopCache?
    ensures var c := Scan(s, w, now, target, severity, protocols, ids);
      && c.cache == NoopCache
      && |c.effects| >= 2
      && Scanner.GetAll(s.(cache := c.cache)) == []
  {
  }

  /** `Scan` and `ThreadSafeScan` share their keys: one serves the other's
      stored result. */
  lemma ModesShareCache(s: ScannerService, w: World, now: nat,
                        target: string, severity: string, protocols: string, ids: seq<string>)
    requires s.cache.MapCache?
    ensures var c1 := ThreadSafeScan(s, w, now, target, severity, protocols, ids);
      c1.err.None? ==> Scan(s.(cache := c1.cache), w, now, target, severity, protocols, ids).result == c1.result
  {
    var key := ScanKey(target, severity, protocols, ids);
    var c1 := ThreadSafeScan(s, w, now, target, severity, protocols, ids);
    if Get(s.cache, key).None? && c1.err.None? {
      assert StoredUnderKey(s.cache, key, target, now, c1);
      assert Get(c1.cache, key) == Some(c1.result);
    }
  }
}
