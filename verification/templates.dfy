/** `loadTemplates`: turning the requested template IDs, or the template
    directory's listing when none are requested, into template paths. */
module TemplateResolution {
  import opened Wrappers
  import opened GoText
  import opened ScanResults

  /** One entry of a directory listing (`os.DirEntry`). */
  datatype DirEntry = DirEntry(name: string, isDir: bool)

  /** What reading the template directory gives: its entries in listing
      order, or the error `os.ReadDir` reported. */
  datatype DirListing = Unreadable(cause: string) | Listing(entries: seq<DirEntry>)

  /** An entry that is not a directory and whose name ends in `.yaml` or `.yml`. */
  predicate IsTemplateFile(e: DirEntry)
  {
    !e.isDir && (HasSuffix(e.name, ".yaml") || HasSuffix(e.name, ".yml"))
  }

  /** Which names the directory mode accepts: the two extensions, compared
      case-sensitively, on anything that is not a directory. */
  lemma TemplateFileExamples()
    ensures IsTemplateFile(DirEntry("a.yaml", false))
    ensures IsTemplateFile(DirEntry("b.yml", false))
    ensures IsTemplateFile(DirEntry(".yaml", false))
    ensures !IsTemplateFile(DirEntry("c.yaml", true))
    ensures !IsTemplateFile(DirEntry("d.json", false))
    ensures !IsTemplateFile(DirEntry("e.YAML", false))
    ensures !IsTemplateFile(DirEntry("f.yaml.bak", false))
  {
    assert "a.yaml"[1..] == ".yaml";
    assert "b.yml"[1..] == ".yml";
    assert ".yaml"[0..] == ".yaml";
    assert "e.YAML"[1..] != ".yaml";
    assert "e.YAML"[2..] != ".yml";
    assert "f.yaml.bak"[5..] != ".yaml";
    assert "f.yaml.bak"[6..] != ".yml";
    assert "d.json"[1..] != ".yaml";
    assert "d.json"[2..] != ".yml";
  }

  /** The directory-mode selection: the path of every template file among
      `entries`, in listing order. */
  function TemplatePaths(dir: string, entries: seq<DirEntry>): (paths: seq<string>)
    ensures |paths| <= |entries|
    ensures forall p :: p in paths <==>
      exists e :: e in entries && IsTemplateFile(e) && p == PathJoin(dir, e.name)
    ensures |paths| == 0 <==> forall e :: e in entries ==> !IsTemplateFile(e)
  {
    if |entries| == 0 then []
    else
      var rest := TemplatePaths(dir, entries[1..]);
      assert forall e :: e in entries <==> e == entries[0] || e in entries[1..];
      if IsTemplateFile(entries[0]) then [PathJoin(dir, entries[0].name)] + rest
      else rest
  }

  /** Selection preserves listing order: selecting from two listings one
      after the other is selecting from their concatenation. */
  lemma {:induction false} TemplatePathsAppend(dir: string, a: seq<DirEntry>, b: seq<DirEntry>)
    ensures TemplatePaths(dir, a + b) == TemplatePaths(dir, a) + TemplatePaths(dir, b)
    decreases |a|
  {
    if |a| > 0 {
      assert (a + b)[0] == a[0];
      assert (a + b)[1..] == a[1..] + b;
      TemplatePathsAppend(dir, a[1..], b);
    } else {
      assert a + b == b;
    }
  }

  /** The explicit-ID mode: each ID joined to the directory, same length and
      order, nothing filtered and nothing checked for existence. */
  function IdPaths(dir: string, ids: seq<string>): (paths: seq<string>)
    ensures |paths| == |ids|
    ensures forall i :: 0 <= i < |ids| ==> paths[i] == PathJoin(dir, ids[i])
  {
    if |ids| == 0 then []
    else [PathJoin(dir, ids[0])] + IdPaths(dir, ids[1..])
  }

  /** `loadTemplates`. `listing` is what reading `dir` gives; it is consulted
      only when no template IDs are given. */
  function LoadTemplates(dir: string, ids: seq<string>, listing: DirListing): (r: Result<seq<string>, ScanError>)
    ensures r.Success? ==> |r.value| > 0
    ensures |ids| > 0 ==> r.Success? && |r.value| == |ids|
    ensures |ids| > 0 && r.Success? ==>
      forall i :: 0 <= i < |ids| ==> r.value[i] == PathJoin(dir, ids[i])
    ensures |ids| == 0 && listing.Unreadable? ==> r == Failure(ReadDirFailed(dir, listing.cause))
    ensures |ids| == 0 && listing.Listing? ==>
      (r.Success? <==> exists e :: e in listing.entries && IsTemplateFile(e))
    ensures |ids| == 0 && r.Failure? && listing.Listing? ==> r.error == NoTemplatesFound(dir)
    ensures |ids| == 0 && r.Success? ==> r.value == TemplatePaths(dir, listing.entries)
  {
    if |ids| == 0 then
      match listing
      case Unreadable(cause) => Failure(ReadDirFailed(dir, cause))
      case Listing(entries) =>
        var paths := TemplatePaths(dir, entries);
        if |paths| == 0 then Failure(NoTemplatesFound(dir)) else Success(paths)
    else
      Success(IdPaths(dir, ids))
  }
}
