# Scan orchestration and result memoization (nuclei-mcp scanner)

This project models the core of the nuclei-mcp scanner service
(`pkg/scanner/scanner.go`) in Dafny. That core sits on top of the Nuclei scan
engine and adds four things:

- **Cache-key derivation.** The base key is `target:severity:protocols`. `Scan` and
  `ThreadSafeScan` append `:` and the template IDs joined with `,` when IDs are
  given. `BasicScan` uses `basic:target`.
- **Template-source resolution (`loadTemplates`).** With no template IDs, the
  service lists the template directory and keeps every entry that is not a
  directory and whose name ends in `.yaml` or `.yml`. It fails if the directory cannot be read or nothing
  matches. With template IDs, it joins each ID to the directory, with no
  filtering and no existence check.
- **The per-call state machine shared by the three scan modes.** The call derives
  the key and looks it up. A hit returns the stored value. On a miss, the call
  resolves templates, configures the engine and runs it. It then either stores
  exactly one result under the key, or fails with the empty result and leaves
  the cache untouched.
- **The findings accumulator.** The engine's callback appends each event, under
  a mutex, to the call's findings.

The model is functional. A `ScannerService` value holds the cache (a map-backed
cache or the no-op cache) and the template directory settings. Each scan mode is
a function that returns a `Call`: the result, the error if any, the cache
afterwards, and the ordered list of effects. An effect is an interaction with the
cache, the file system or the engine. The collaborators are passed in as a
`World`:

- what `os.ReadDir` gives for a directory;
- what `os.Stat` says about a path;
- what the engine answers for a request: the error it returned, or the events
  it delivered to the callback.

The completion clock reading `now` is a parameter.

Modules, one per component: `Wrappers` (Option/Result), `GoText` (the parts of Go's
`fmt.Sprintf`, `strings.Join`, `strings.HasSuffix` and `filepath.Join` that the
scanner calls, plus a model of `strings.Split`, which the scanner does not call;
`Split` is there only to state that the template-ID join can be undone, in
`CacheKeys.ScanKeyInjectiveInTemplates`), `ScanResults`, `ResultCache`, `CacheKeys`,
`TemplateResolution`, `Findings`, `EngineConfig`, `Scanner` and
`ScannerProperties`.

## What the key scheme does not guarantee

- Template IDs are joined in the order given, not sorted, so the same IDs in
  another order give another key (`CacheKeys.TemplateOrderMatters`).
- An ID containing `,` collides with the IDs it looks like once joined:
  `["a,b"]` and `["a","b"]` give the same key (`CacheKeys.TemplateCommaCollision`).
  Different ID lists give different keys only when no ID contains `,`
  (`CacheKeys.ScanKeyInjectiveInTemplates`).
- Keys are not injective across arguments: `("a:b","c","d")` and
  `("a","b:c","d")` give the same key (`CacheKeys.CrossArgumentCollision`). They
  are injective in each argument separately (`CacheKeys.ScanKeyInjectiveIn*`).
- Basic keys are not separated from scan keys in general: `BasicScan("x:")` and
  `Scan("basic","x","",nil)` share a key (`CacheKeys.BasicCollision`). Two
  separations do hold:
  - a basic key never equals the key of an unfiltered, template-less scan of the
    same target (`CacheKeys.BasicKeyDiffersFromPlainScan`);
  - a basic key never equals any scan key whose target has no `:` and is not
    `basic` (`CacheKeys.BasicKeyIsolated`).

The stat check stops `BasicScan` only when `os.Stat` reports that the file does not exist; any other stat error falls through to the engine, and an engine error
then comes back unchanged (`ScannerProperties.BasicScanRunsEngineOnce`).

## Model

| member | source | states |
|---|---|---|
| CacheKeys.CreateCacheKey | pkg/scanner/scanner.go:57-59 | formatting `%s:%s:%s` gives exactly target, `:`, severity, `:`, protocols |
| CacheKeys.ScanKey | pkg/scanner/scanner.go:94-98 | no template IDs: the key is the base key; otherwise the base key, `:`, then the IDs joined by `,` in input order |
| CacheKeys.BasicKey | pkg/scanner/scanner.go:241 | formatting `basic:%s` gives `basic:` followed by the target |
| GoText.JoinEnds | pkg/scanner/scanner.go:97 | `strings.Join` of no IDs is empty; otherwise the result starts with the first ID and ends with the last |
| GoText.SplitJoin | pkg/scanner/scanner.go:97 | with at least one element and none containing the separator, splitting the joined string gives back the elements |
| CacheKeys.KeyExamples | tests/scanner_test.go:70-74 | the keys the unit tests expect, including `cached.com:info:http` and `basic:basiccached.com` |
| CacheKeys.ScanKeyInjectiveInTarget | pkg/scanner/scanner.go:57-59 | with the other arguments fixed, equal keys mean equal targets |
| CacheKeys.ScanKeyInjectiveInSeverity | pkg/scanner/scanner.go:57-59 | with the other arguments fixed, equal keys mean equal severity filters |
| CacheKeys.ScanKeyInjectiveInProtocols | pkg/scanner/scanner.go:57-59 | with the other arguments fixed, equal keys mean equal protocol filters |
| CacheKeys.ScanKeyInjectiveInTemplates | pkg/scanner/scanner.go:96-98 | with the other arguments fixed and no ID containing `,`, equal keys mean equal ID lists (the join is undone by a split) |
| CacheKeys.BasicKeyInjective | pkg/scanner/scanner.go:241 | equal basic keys mean equal targets |
| CacheKeys.BasicKeyDiffersFromPlainScan | pkg/scanner/scanner.go:241 | `BasicScan(x)` and `Scan(x,"","",nil)` never share a key |
| CacheKeys.BasicKeyIsolated | pkg/scanner/scanner.go:241 | a basic key differs from every scan key whose target has no `:` and is not `basic` |
| CacheKeys.TemplateOrderMatters | pkg/scanner/scanner.go:97 | the IDs are not sorted: `[a,b]` and `[b,a]` give different keys |
| CacheKeys.CrossArgumentCollision | pkg/scanner/scanner.go:58 | `("a:b","c","d")` and `("a","b:c","d")` share a key |
| CacheKeys.TemplateCommaCollision | pkg/scanner/scanner.go:97 | IDs `["a,b"]` and `["a","b"]` share a key |
| CacheKeys.BasicCollision | pkg/scanner/scanner.go:241 | `BasicScan("x:")` shares its key with `Scan("basic","x","",nil)` |
| TemplateResolution.TemplateFileExamples | pkg/scanner/scanner.go:73 | `IsTemplateFile` accepts any non-directory entry ending in `.yaml` or `.yml`, case-sensitively, and rejects directories, other extensions and upper-case extensions |
| TemplateResolution.TemplatePaths | pkg/scanner/scanner.go:71-76 | a path is selected iff it joins the directory with the name of a non-directory entry ending in `.yaml`/`.yml`; the selection is empty iff no entry qualifies |
| TemplateResolution.TemplatePathsAppend | pkg/scanner/scanner.go:72-76 | selection keeps listing order: selecting from a concatenated listing concatenates the selections |
| TemplateResolution.IdPaths | pkg/scanner/scanner.go:83-87 | same length and order as the IDs, element i is the directory joined with ID i |
| TemplateResolution.LoadTemplates | pkg/scanner/scanner.go:62-91 | explicit IDs never fail; directory mode fails with the read error, or with "no templates found" iff no entry qualifies; a success is never empty |
| Findings.Append | pkg/scanner/scanner.go:143-148 | one callback invocation adds exactly its event after what was collected |
| Findings.Deliver | pkg/scanner/scanner.go:138-148 | delivering events one callback at a time yields the collected events followed by the delivered ones: none lost, duplicated or reordered |
| EngineConfig.ScanOptions | pkg/scanner/scanner.go:107-123 | update check off, exactly the resolved templates, and a filter option iff severity or protocol is non-empty, carrying both |
| EngineConfig.BasicOptions | pkg/scanner/scanner.go:257-262 | update check off, exactly the one basic template, no filter |
| ResultCache.Get | pkg/scanner/scanner.go:100 | a hit iff the map cache holds the key, with the stored value; the no-op cache always misses |
| ResultCache.Set | pkg/scanner/scanner.go:162 | afterwards the key maps to the value (no-op cache: still misses) and every other key is unchanged |
| ResultCache.GetAll | pkg/scanner/scanner.go:305 | one stored result per key: position i holds the value of the i-th key of an enumeration that lists every key exactly once; empty for the no-op cache |
| Scanner.NewScannerService | pkg/scanner/scanner.go:38-55 | a nil cache becomes the no-op cache; an empty basic template name becomes `basic-test.yaml`; other settings kept |
| Scanner.Finish | pkg/scanner/scanner.go:150-166 | the call succeeds iff the engine completes; then it stores a result stamped now, whose findings are the delivered events, under the key as the last effect; an engine error is returned verbatim with the cache untouched |
| Scanner.ScanRequest | pkg/scanner/scanner.go:125-141 | the mode's engine for the given options and the one target; for the synchronous engine targets are loaded without HTTP probing and all templates are loaded first (lines 133, 141); `ThreadSafeScan` gets the cancellable engine (lines 202, 221) |
| Scanner.ScanMiss | pkg/scanner/scanner.go:105-166 | a miss either fails with the empty result, the cache as it was and no write, or stores one result under the key as its last effect; only the mode's engine kind is run |
| Scanner.FilteredScan | pkg/scanner/scanner.go:93-167 | a hit returns the stored value with the lookup as the only effect; a miss either fails with the empty result and no cache write, or stores one result under the key |
| Scanner.Scan | pkg/scanner/scanner.go:93-167 | the memoization discipline of `FilteredScan` for the scan key; only the synchronous engine is run |
| Scanner.ThreadSafeScan | pkg/scanner/scanner.go:169-238 | the same discipline for the same key; only the cancellable engine is run, and a cancelled run leaves the cache untouched |
| Scanner.BasicScan | pkg/scanner/scanner.go:240-302 | the same discipline for the basic key |
| Scanner.GetAll | pkg/scanner/scanner.go:304-306 | delegates to the cache: one result per stored key, position i holding the value of the i-th key of `KeyOrder`, which lists every key exactly once; nothing for the no-op cache |
| ScannerProperties.ResolutionFailureStopsScan | pkg/scanner/scanner.go:111-114 | a miss whose templates do not resolve returns the resolution error after the lookup and the directory read, and runs no engine |
| ScannerProperties.ResolvedScanFinishes | pkg/scanner/scanner.go:115-125 | a resolved miss ends in the engine step for the mode's request, built from the resolved templates and filters, after effects that ran no engine |
| ScannerProperties.ScanConfiguresEngine | pkg/scanner/scanner.go:115-141 | a resolved miss runs the engine once: on the target alone, in the mode's engine, with the resolved templates and the update check off, and with a filter iff a filter string is non-empty |
| ScannerProperties.ScanFollowsEngine | pkg/scanner/scanner.go:150-166 | a resolved miss succeeds iff the engine completes; the findings are then the delivered events, and an engine error is returned verbatim |
| ScannerProperties.ExplicitIdsGoStraightToEngine | pkg/scanner/scanner.go:82-88 | with explicit IDs, the directory is never read and the engine receives exactly the joined IDs, whether or not the files exist |
| ScannerProperties.MissingBasicTemplateStopsScan | pkg/scanner/scanner.go:250-255 | a missing basic template fails naming its path, and no engine is run |
| ScannerProperties.BasicScanRunsEngineOnce | pkg/scanner/scanner.go:257-302 | otherwise one synchronous run with HTTP probing, only the basic template, no filter and no `LoadAllTemplates`; it succeeds iff the engine completes, and otherwise returns the engine's error unchanged (lines 268, 288) |
| ScannerProperties.RepeatedScanHits | pkg/scanner/scanner.go:100-103 | after a successful `Scan` on a map cache, the identical call returns the same result without running the engine, whatever the collaborators answer |
| ScannerProperties.RepeatedBasicScanHits | pkg/scanner/scanner.go:243-246 | the same for `BasicScan` |
| ScannerProperties.FailedScanStaysUncached | pkg/scanner/scanner.go:150-154 | after a failed call the key still misses, the cache is unchanged, and there are no findings |
| ScannerProperties.ScanLeavesOtherKeys | pkg/scanner/scanner.go:162 | a scan changes no cache key other than its own |
| ScannerProperties.NoopCacheNeverServes | pkg/scanner/scanner.go:40-42 | with the no-op cache every call goes past the lookup, and the cache lists nothing afterwards |
| ScannerProperties.ModesShareCache | pkg/scanner/scanner.go:171-179 | a result stored by `ThreadSafeScan` serves the identical `Scan` call |

## Left out

- The Nuclei engine (`lib.NewNucleiEngine`, `NewThreadSafeNucleiEngineCtx`, `LoadAllTemplates`, `LoadTargets`, `ExecuteWithCallback`, `ExecuteNucleiWithOptsCtx`, `GlobalResultCallback`, `Close`). These are foreign calls. A request goes in, and the engine's error or the delivered events come out. Which step produced an error is not recorded, because the scanner returns every engine error unchanged.
- Context cancellation and timeouts. They are modelled as an engine failure.
- Concurrency of the findings callback and its mutex. The callbacks are modelled as appends in the order they take the lock.
- `os.ReadDir` and `os.Stat`. Their answers are inputs.
- `filepath.Join` path cleaning. A join is `dir + "/" + name`.
- `time.Now()`. The clock reading is the parameter `now`, and a real reading is never the zero time.
- Logging (`pkg/logging/logger.go`). With a non-nil logger, which is assumed, it only observes and does not affect control flow. `NewScannerService` does not replace a nil logger (lines 40-42 replace only a nil cache), so every call would panic at its first `Log`.
- `pkg/templates/templates.go`. It is thin file-system wrappers the scanner does not call.
- The concrete cache package (`pkg/cache`). Its source is not part of this model. Only a map-backed store and the no-op variant are modelled.
- `GoText.Sprintf`: models only `%s` verbs with exactly one argument per verb. The Go `%!s(MISSING)` and `%!(EXTRA …)` forms are left out because the scanner's two format strings never produce them.
- `ResultCache.GetAll`: is a ghost function that lists values along `KeyOrder`, some order of the keys. The actual listing order belongs to the cache implementation, which is not modelled.
- Scanner.GetAll: ghost for the same reason; it lists one result per stored key along `KeyOrder`, and the order is the cache's own.
- The exported `Cache` field. `NewScannerService` sets it and `cache` from the same value, but every method reads only `cache` (lines 100, 162, 176, 233, 243, 297, 305). A caller may reassign `Cache` without effect on scans, so only `cache` is modelled.
- Concurrent calls on one service. Calls are modelled one at a time, each against the cache as it was when the call started. In Go two calls on one key can both miss, both run the engine and both `Set`, with the last write winning, and another call's `Set` can land between one call's `Get` and its `Set`. `StoredUnderKey`, `RepeatedScanHits` and `RepeatedBasicScanHits` hold only for sequential calls.
