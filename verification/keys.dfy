/** Cache-key derivation for the three scan modes. */
module CacheKeys {
  import opened GoText

  /** `CreateCacheKey`: `fmt.Sprintf("%s:%s:%s", target, severity, protocols)`. */
  function CreateCacheKey(target: string, severity: string, protocols: string): (key: string)
    ensures key == target + ":" + severity + ":" + protocols
  {
    BaseFormat(target, severity, protocols);
    Sprintf("%s:%s:%s", [target, severity, protocols])
  }

  /** The base-key format expands to the three arguments separated by `:`. */
  lemma BaseFormat(target: string, severity: string, protocols: string)
    ensures VerbCount("%s:%s:%s") == 3
    ensures Sprintf("%s:%s:%s", [target, severity, protocols])
         == target + ":" + severity + ":" + protocols
  {
    SprintfVerb("", protocols, []);
    SprintfLiteral(":", "%s", [protocols]);
    SprintfVerb(":%s", severity, [protocols]);
    SprintfLiteral(":", "%s:%s", [severity, protocols]);
    SprintfVerb(":%s:%s", target, [severity, protocols]);
  }

  /** What `Scan` and `ThreadSafeScan` append to the base key: nothing for
      no template IDs, otherwise `:` and the IDs joined by `,` in the order
      given. */
  function TemplateSuffix(templateIDs: seq<string>): string
  {
    if |templateIDs| > 0 then ":" + Join(templateIDs, ",") else ""
  }

  /** The key `Scan` and `ThreadSafeScan` look up and store under. */
  function ScanKey(target: string, severity: string, protocols: string, templateIDs: seq<string>): (key: string)
    ensures |templateIDs| == 0 ==> key == target + ":" + severity + ":" + protocols
    ensures |templateIDs| > 0 ==>
      key == target + ":" + severity + ":" + protocols + ":" + Join(templateIDs, ",")
  {
    CreateCacheKey(target, severity, protocols) + TemplateSuffix(templateIDs)
  }

  /** The key `BasicScan` uses: `fmt.Sprintf("basic:%s", target)`. */
  function BasicKey(target: string): (key: string)
    ensures key == "basic:" + target
  {
    BasicFormat(target);
    Sprintf("basic:%s", [target])
  }

  /** The basic-key format expands to the literal prefix and the target. */
  lemma BasicFormat(target: string)
    ensures VerbCount("basic:%s") == 1
    ensures Sprintf("basic:%s", [target]) == "basic:" + target
  {
    SprintfVerb("", target, []);
    SprintfLiteral("basic:", "%s", [target]);
    assert "%s" + "" == "%s";
    assert "basic:" + "%s" == "basic:%s";
    assert [target] + [] == [target];
  }

  /** The expected keys of the scanner's unit tests. */
  lemma KeyExamples()
    ensures CreateCacheKey("example.com", "high", "http") == "example.com:high:http"
    ensures CreateCacheKey("test.com", "low", "tcp") == "test.com:low:tcp"
    ensures ScanKey("cached.com", "info", "http", []) == "cached.com:info:http"
    ensures BasicKey("basiccached.com") == "basic:basiccached.com"
  {
    assert "example.com" + ":" + "high" + ":" + "http" == "example.com:high:http";
    assert "test.com" + ":" + "low" + ":" + "tcp" == "test.com:low:tcp";
    assert "cached.com" + ":" + "info" + ":" + "http" == "cached.com:info:http";
    assert "basic:" + "basiccached.com" == "basic:basiccached.com";
  }

  /** With the other arguments fixed, different targets give different keys. */
  lemma ScanKeyInjectiveInTarget(t1: string, t2: string, severity: string, protocols: string, ids: seq<string>)
    requires ScanKey(t1, severity, protocols, ids) == ScanKey(t2, severity, protocols, ids)
    ensures t1 == t2
  {
    var tail := ":" + severity + ":" + protocols + TemplateSuffix(ids);
    KeyAsTargetAndTail(t1, severity, protocols, ids);
    KeyAsTargetAndTail(t2, severity, protocols, ids);
    assert (t1 + tail)[..|t1|] == t1;
    assert (t2 + tail)[..|t2|] == t2;
  }

  /** A scan key is its target followed by a part that does not depend on it. */
  lemma KeyAsTargetAndTail(target: string, severity: string, protocols: string, ids: seq<string>)
    ensures ScanKey(target, severity, protocols, ids)
         == target + (":" + severity + ":" + protocols + TemplateSuffix(ids))
  {
  }

  /** With the other arguments fixed, different severities give different keys. */
  lemma ScanKeyInjectiveInSeverity(target: string, s1: string, s2: string, protocols: string, ids: seq<string>)
    requires ScanKey(target, s1, protocols, ids) == ScanKey(target, s2, protocols, ids)
    ensures s1 == s2
  {
    var tail := ":" + protocols + TemplateSuffix(ids);
    KeyAroundSeverity(target, s1, protocols, ids);
    KeyAroundSeverity(target, s2, protocols, ids);
    SameFrame(target + ":", s1, s2, tail);
  }

  /** With the other arguments fixed, different protocol filters give
      different keys. */
  lemma ScanKeyInjectiveInProtocols(target: string, severity: string, p1: string, p2: string, ids: seq<string>)
    requires ScanKey(target, severity, p1, ids) == ScanKey(target, severity, p2, ids)
    ensures p1 == p2
  {
    KeyAroundProtocols(target, severity, p1, ids);
    KeyAroundProtocols(target, severity, p2, ids);
    SameFrame(target + ":" + severity + ":", p1, p2, TemplateSuffix(ids));
  }

  /** A scan key with the severity between the parts around it. */
  lemma KeyAroundSeverity(target: string, severity: string, protocols: string, ids: seq<string>)
    ensures ScanKey(target, severity, protocols, ids)
         == (target + ":") + severity + (":" + protocols + TemplateSuffix(ids))
  {
  }

  /** A scan key with the protocol filter between the parts around it. */
  lemma KeyAroundProtocols(target: string, severity: string, protocols: string, ids: seq<string>)
    ensures ScanKey(target, severity, protocols, ids)
         == (target + ":" + severity + ":") + protocols + TemplateSuffix(ids)
  {
  }

  /** Equal strings with the same prefix and suffix have the same middle. */
  lemma SameFrame(head: string, a: string, b: string, tail: string)
    requires head + a + tail == head + b + tail
    ensures a == b
  {
    var n := |head|;
    assert |a| == |b|;
    assert (head + a + tail)[n..n + |a|] == a;
    assert (head + b + tail)[n..n + |b|] == b;
  }

  /** With the other arguments fixed, different template-ID lists give
      different keys, provided no ID contains the `,` the IDs are joined with. */
  lemma ScanKeyInjectiveInTemplates(target: string, severity: string, protocols: string, ids1: seq<string>, ids2: seq<string>)
    requires forall i :: 0 <= i < |ids1| ==> ',' !in ids1[i]
    requires forall i :: 0 <= i < |ids2| ==> ',' !in ids2[i]
    requires ScanKey(target, severity, protocols, ids1) == ScanKey(target, severity, protocols, ids2)
    ensures ids1 == ids2
  {
    var base := CreateCacheKey(target, severity, protocols);
    var x1 := TemplateSuffix(ids1);
    var x2 := TemplateSuffix(ids2);
    assert (base + x1)[|base|..] == x1;
    assert (base + x2)[|base|..] == x2;
    assert x1 == x2;
    if |ids1| > 0 && |ids2| > 0 {
      assert x1[1..] == Join(ids1, ",");
      assert x2[1..] == Join(ids2, ",");
      SplitJoin(ids1, ',');
      SplitJoin(ids2, ',');
    }
  }

  /** Two targets give different basic keys. */
  lemma BasicKeyInjective(t1: string, t2: string)
    requires BasicKey(t1) == BasicKey(t2)
    ensures t1 == t2
  {
    assert ("basic:" + t1)[6..] == t1;
    assert ("basic:" + t2)[6..] == t2;
  }

  /** A basic key never equals the key of an unfiltered, template-less scan of
      the same target (the two differ in length by four characters). */
  lemma BasicKeyDiffersFromPlainScan(target: string)
    ensures BasicKey(target) != ScanKey(target, "", "", [])
  {
    assert |BasicKey(target)| == |target| + 6;
    assert |ScanKey(target, "", "", [])| == |target| + 2;
  }

  /** Basic keys stay apart from scan keys whose target has no `:` and is not
      the word `basic`: the literal prefix alone separates them. */
  lemma BasicKeyIsolated(x: string, target: string, severity: string, protocols: string, ids: seq<string>)
    requires ':' !in target
    requires target != "basic"
    ensures BasicKey(x) != ScanKey(target, severity, protocols, ids)
  {
    var b := BasicKey(x);
    var k := ScanKey(target, severity, protocols, ids);
    var n := |target|;
    KeyAsTargetAndTail(target, severity, protocols, ids);
    assert k[..n] == target && k[n] == ':';
    assert b[..6] == "basic:";
    if n < 5 {
      assert b[n] == "basic"[n] != ':';
      assert b[n] != k[n];
    } else if n > 5 {
      assert k[5] == target[5] != ':';
      assert b[5] != k[5];
    } else {
      assert b[..5] == "basic" != k[..5];
    }
  }

  /** Template IDs are joined in the order given, not sorted: the same set in
      another order is another key. */
  lemma TemplateOrderMatters()
    ensures ScanKey("t", "", "", ["a", "b"]) != ScanKey("t", "", "", ["b", "a"])
  {
    assert ScanKey("t", "", "", ["a", "b"])[4] == 'a';
    assert ScanKey("t", "", "", ["b", "a"])[4] == 'b';
  }

  /** The key scheme is not injective across arguments: a `:` inside an
      argument can move a boundary. */
  lemma CrossArgumentCollision()
    ensures ScanKey("a:b", "c", "d", []) == ScanKey("a", "b:c", "d", [])
  {
  }

  /** An ID containing `,` collides with the IDs it looks like once joined. */
  lemma TemplateCommaCollision(target: string, severity: string, protocols: string)
    ensures ScanKey(target, severity, protocols, ["a,b"]) == ScanKey(target, severity, protocols, ["a", "b"])
  {
    var base := CreateCacheKey(target, severity, protocols);
    assert Join(["a,b"], ",") == "a,b";
    assert Join(["a", "b"], ",") == "a" + "," + Join(["b"], ",");
    assert Join(["b"], ",") == "b";
    assert "a" + "," + "b" == "a,b";
    assert TemplateSuffix(["a,b"]) == ":a,b" == TemplateSuffix(["a", "b"]);
  }

  /** A basic key can equal a scan key: target `basic`, severity `x`, and an
      empty protocol filter reproduce `BasicScan("x:")`. */
  lemma BasicCollision()
    ensures BasicKey("x:") == ScanKey("basic", "x", "", [])
  {
  }
}
