/** The parts of Go's `fmt.Sprintf`, `strings.Join`, `strings.HasSuffix` and
    `filepath.Join` that the scanner calls to build cache keys and template
    paths, plus `strings.Split`, which the scanner does not call; `Split` is
    here only to state that the template-ID join can be undone. */
module GoText {

  /** True when the format string starts with the `%s` verb. */
  predicate StartsWithVerb(f: string)
  {
    |f| >= 2 && f[0] == '%' && f[1] == 's'
  }

  /** Number of `%s` verbs in a format string. */
  function VerbCount(f: string): nat
    decreases |f|
  {
    if |f| == 0 then 0
    else if StartsWithVerb(f) then 1 + VerbCount(f[2..])
    else VerbCount(f[1..])
  }

  /** `fmt.Sprintf` for format strings whose only verb is `%s`, given exactly
      one string argument per verb: each verb is replaced by the next argument
      and every other character is copied. */
  function Sprintf(f: string, args: seq<string>): string
    requires VerbCount(f) == |args|
    decreases |f|
  {
    if |f| == 0 then ""
    else if StartsWithVerb(f) then args[0] + Sprintf(f[2..], args[1..])
    else [f[0]] + Sprintf(f[1..], args)
  }

  /** A literal run without `%` is copied through unchanged. */
  lemma {:induction false} SprintfLiteral(lit: string, rest: string, args: seq<string>)
    requires '%' !in lit
    requires VerbCount(rest) == |args|
    ensures VerbCount(lit + rest) == |args|
    ensures Sprintf(lit + rest, args) == lit + Sprintf(rest, args)
    decreases |lit|
  {
    if |lit| > 0 {
      var f := lit + rest;
      assert f[0] == lit[0];
      assert !StartsWithVerb(f);
      assert f[1..] == lit[1..] + rest;
      SprintfLiteral(lit[1..], rest, args);
    } else {
      assert lit + rest == rest;
    }
  }

  /** A leading `%s` consumes the first argument. */
  lemma SprintfVerb(rest: string, arg: string, args: seq<string>)
    requires VerbCount(rest) == |args|
    ensures VerbCount("%s" + rest) == |args| + 1
    ensures Sprintf("%s" + rest, [arg] + args) == arg + Sprintf(rest, args)
  {
    var f := "%s" + rest;
    assert StartsWithVerb(f);
    assert f[2..] == rest;
    assert ([arg] + args)[1..] == args;
  }

  /** `strings.Join`: the elements with `sep` between consecutive ones.
      `JoinEnds` and `SplitJoin` state what it gives. */
  function Join(elems: seq<string>, sep: string): string
  {
    if |elems| == 0 then ""
    else if |elems| == 1 then elems[0]
    else elems[0] + sep + Join(elems[1..], sep)
  }

  /** Joining nothing gives the empty string; otherwise the result starts
      with the first element and ends with the last. */
  lemma {:induction false} JoinEnds(elems: seq<string>, sep: string)
    ensures |elems| == 0 ==> Join(elems, sep) == ""
    ensures |elems| > 0 ==> |elems[0]| <= |Join(elems, sep)|
    ensures |elems| > 0 ==> Join(elems, sep)[..|elems[0]|] == elems[0]
    ensures |elems| > 0 ==> |elems[|elems| - 1]| <= |Join(elems, sep)|
    ensures |elems| > 0 ==>
      Join(elems, sep)[|Join(elems, sep)| - |elems[|elems| - 1]|..] == elems[|elems| - 1]
    decreases |elems|
  {
    if |elems| > 1 {
      JoinEnds(elems[1..], sep);
      var rest := Join(elems[1..], sep);
      var last := elems[|elems| - 1];
      assert elems[1..][|elems[1..]| - 1] == last;
      var j := elems[0] + sep + rest;
      assert j[..|elems[0]|] == elems[0];
      assert j[|j| - |last|..] == rest[|rest| - |last|..];
    }
  }

  /** `strings.Split` around a one-character separator: the pieces between
      consecutive separators; the empty string splits into one empty piece. */
  function Split(s: string, sep: char): (pieces: seq<string>)
    ensures |pieces| >= 1
  {
    if |s| == 0 then [""]
    else
      var rest := Split(s[1..], sep);
      if s[0] == sep then [""] + rest
      else [[s[0]] + rest[0]] + rest[1..]
  }

  /** A string without the separator is a single piece. */
  lemma {:induction false} SplitWithoutSeparator(s: string, sep: char)
    requires sep !in s
    ensures Split(s, sep) == [s]
    decreases |s|
  {
    if |s| > 0 {
      SplitWithoutSeparator(s[1..], sep);
      assert [s[0]] + s[1..] == s;
    }
  }

  /** Splitting stops at the first separator. */
  lemma {:induction false} SplitAtFirstSeparator(a: string, b: string, sep: char)
    requires sep !in a
    ensures Split(a + [sep] + b, sep) == [a] + Split(b, sep)
    decreases |a|
  {
    var s := a + [sep] + b;
    if |a| == 0 {
      assert s[0] == sep;
      assert s[1..] == b;
    } else {
      assert s[0] == a[0];
      assert s[1..] == a[1..] + [sep] + b;
      SplitAtFirstSeparator(a[1..], b, sep);
      assert [a[0]] + a[1..] == a;
    }
  }

  /** `strings.Split` undoes `strings.Join` when no element contains the
      separator and there is at least one element. */
  lemma {:induction false} SplitJoin(elems: seq<string>, sep: char)
    requires |elems| > 0
    requires forall i :: 0 <= i < |elems| ==> sep !in elems[i]
    ensures Split(Join(elems, [sep]), sep) == elems
    decreases |elems|
  {
    if |elems| == 1 {
      SplitWithoutSeparator(elems[0], sep);
    } else {
      SplitJoin(elems[1..], sep);
      SplitAtFirstSeparator(elems[0], Join(elems[1..], [sep]), sep);
      assert [elems[0]] + elems[1..] == elems;
    }
  }

  /** `strings.HasSuffix`. */
  predicate HasSuffix(s: string, suffix: string)
  {
    |suffix| <= |s| && s[|s| - |suffix|..] == suffix
  }

  /** `filepath.Join` of a directory and a file name, without path cleaning. */
  function PathJoin(dir: string, name: string): string
  {
    dir + "/" + name
  }
}
