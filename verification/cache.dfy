/** The result-cache interface the scanner talks to, with its two variants:
    a map-backed store and the no-op cache used when caching is disabled. */
module ResultCache {
  import opened Wrappers
  import opened ScanResults

  datatype Cache =
    | MapCache(entries: map<string, ScanResult>)
    | NoopCache

  /** `Get`: a pure lookup; the no-op cache always misses. */
  function Get(c: Cache, key: string): (r: Option<ScanResult>)
    ensures r.Some? <==> c.MapCache? && key in c.entries
    ensures r.Some? ==> r.value == c.entries[key]
  {
    match c
    case NoopCache => None
    case MapCache(m) => if key in m then Some(m[key]) else None
  }

  /** `Set`: an unconditional upsert of one key; the no-op cache discards. */
  function Set(c: Cache, key: string, v: ScanResult): (c': Cache)
    ensures c'.NoopCache? <==> c.NoopCache?
    ensures Get(c', key) == if c.NoopCache? then None else Some(v)
    ensures forall k :: k != key ==> Get(c', k) == Get(c, k)
    ensures c.MapCache? ==> c'.entries.Keys == c.entries.Keys + {key}
  {
    match c
    case NoopCache => NoopCache
    case MapCache(m) => MapCache(m[key := v])
  }

  /** Some order in which the keys of a map can be listed, each exactly once. */
  ghost function KeyOrder(m: map<string, ScanResult>): (ks: seq<string>)
    ensures |ks| == |m|
    ensures forall k :: k in ks <==> k in m
    ensures forall i, j :: 0 <= i < j < |ks| ==> ks[i] != ks[j]
    decreases |m|
  {
    if |m| == 0 then []
    else
      var k :| k in m;
      var rest := m - {k};
      assert rest.Keys == m.Keys - {k};
      assert |rest.Keys| == |m.Keys| - 1;
      [k] + KeyOrder(rest)
  }

  /** `GetAll`: every stored result, one per key, in an order the cache
      implementation chooses; the no-op cache holds nothing. Position `i`
      holds the value of the `i`-th key of `KeyOrder`, which lists every key
      exactly once. */
  ghost function GetAll(c: Cache): (all: seq<ScanResult>)
    ensures c.NoopCache? ==> all == []
    ensures c.MapCache? ==> |all| == |c.entries|
    ensures c.MapCache? ==> forall k :: k in c.entries ==> c.entries[k] in all
    ensures c.MapCache? ==> |all| == |KeyOrder(c.entries)|
    ensures c.MapCache? ==>
      forall i :: 0 <= i < |all| ==> all[i] == c.entries[KeyOrder(c.entries)[i]]
    ensures forall i :: 0 <= i < |all| ==> exists k :: Get(c, k) == Some(all[i])
  {
    match c
    case NoopCache => []
    case MapCache(m) =>
      var ks := KeyOrder(m);
      var all := seq(|ks|, i requires 0 <= i < |ks| => m[ks[i]]);
      EnumerationListsValues(m, ks, all);
      all
  }

  /** Reading the values of `m` along an enumeration of its keys lists every
      stored value, and only stored values. */
  lemma EnumerationListsValues(m: map<string, ScanResult>, ks: seq<string>, all: seq<ScanResult>)
    requires forall k :: k in ks <==> k in m
    requires |all| == |ks|
    requires forall i :: 0 <= i < |ks| ==> all[i] == m[ks[i]]
    ensures forall k :: k in m ==> m[k] in all
    ensures forall i :: 0 <= i < |all| ==> Get(MapCache(m), ks[i]) == Some(all[i])
  {
    forall k | k in m
      ensures m[k] in all
    {
      var i :| 0 <= i < |ks| && ks[i] == k;
      assert all[i] == m[k];
    }
  }
}
