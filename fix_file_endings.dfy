/** The repository-wide normaliser `fix_file_endings.py`: it walks a directory tree, picks
    the text files outside excluded directories and rewrites those whose text the line-end
    transform changes (unless it is a dry run). */
module FixFileEndings {
  import opened Wrappers
  import opened Text
  import opened FileTree
  import opened FixFileEnding

  /** The files `should_process_file` accepts: a known text suffix (compared in lower case)
      and no path component that names an excluded directory. */
  predicate Processed(p: Path) {
    Lower(Suffix(Name(p))) in TextExtensions && !InExcludedDir(p)
  }

  /** `should_process_file`: the suffix test, then a scan of the path's components. */
  method ShouldProcessFile(p: Path) returns (r: bool)
    ensures r <==> Processed(p)
  {
    if Lower(Suffix(Name(p))) !in TextExtensions {
      return false;
    }
    var i := 0;
    while i < |p|
      invariant 0 <= i <= |p|
      invariant forall k :: 0 <= k < i ==> p[k] !in ExcludeDirs
    {
      if p[i] in ExcludeDirs {
        return false;
      }
      i := i + 1;
    }
    return true;
  }

  /** `fix_file`: whether the file was modified, and the text written back, if any. A file
      that cannot be read counts as unmodified; a dry run writes nothing. The transform is
      the one as written, so blanks in front of a "\r\n" stay in the written text; without
      "\r" no line of it ends in a blank. */
  function FixFile(content: Option<string>, dryRun: bool): (r: (bool, Option<string>))
    ensures content.None? ==> r == (false, None)
    ensures content.Some? ==> (r.0 <==> FixEndingAsWritten(content.value) != content.value)
    ensures r.1.Some? <==> r.0 && !dryRun
    ensures r.1.Some? ==> IsSuffix("\n", r.1.value) && !IsSuffix("\n\n", r.1.value)
    ensures r.1.Some? && '\r' !in content.value ==> NoBlankAtLineEnd(r.1.value)
  {
    match content
    case None => (false, None)
    case Some(text) =>
      var fixed := FixEndingAsWritten(text);
      var modified := text != fixed;
      AgreeWithoutCr(text);
      (modified, if modified && !dryRun then Some(fixed) else None)
  }

  /** Without "\r" in the text, the transform as written is the intended one. */
  lemma AgreeWithoutCr(text: string)
    ensures '\r' !in text ==> FixEndingAsWritten(text) == FixEnding(text)
  {
    if '\r' !in text {
      AsWrittenAgreesWithoutCr(text);
    }
  }

  /** The file "a \r\n" is rewritten as "a \n": its blank survives at the line end. */
  lemma BlankBeforeCrLfWritten()
    ensures FixFile(Some("a \r\n"), false) == (true, Some("a \n"))
    ensures !NoBlankAtLineEnd(FixFile(Some("a \r\n"), false).1.value)
  {
    BlankBeforeCrLfSurvives();
  }

  /** With the intended transform the file's written text has no blank at a line end. */
  function FixFileCorrected(content: Option<string>, dryRun: bool): (r: (bool, Option<string>))
    ensures content.None? ==> r == (false, None)
    ensures content.Some? ==> (r.0 <==> FixEnding(content.value) != content.value)
    ensures r.1.Some? <==> r.0 && !dryRun
    ensures r.1.Some? ==> NoBlankAtLineEnd(r.1.value) && IsSuffix("\n", r.1.value)
                          && !IsSuffix("\n\n", r.1.value)
    ensures content.Some? && '\r' !in content.value ==> r == FixFile(content, dryRun)
  {
    match content
    case None => (false, None)
    case Some(text) =>
      var fixed := FixEnding(text);
      var modified := text != fixed;
      AgreeWithoutCr(text);
      (modified, if modified && !dryRun then Some(fixed) else None)
  }

  /** A file the transform produced is reported unmodified on a second run, provided it
      holds no "\r". */
  lemma SecondRunModifiesNothing(text: string, dryRun: bool)
    requires '\r' !in text
    ensures var r := FixFile(Some(text), false);
            r.1.Some? ==> FixFile(r.1, dryRun) == (false, None)
  {
    FixEndingStableWithoutCr(text);
    AsWrittenAgreesWithoutCr(text);
    AsWrittenAgreesWithoutCr(FixEnding(text));
  }

  /** The paths examined among the visited files, in visiting order. */
  function Examined(files: seq<(Path, Option<string>)>): (r: seq<Path>)
    ensures |r| <= |files|
  {
    if |files| == 0 then []
    else
      var last := files[|files| - 1];
      Examined(files[..|files| - 1]) + (if Processed(last.0) then [last.0] else [])
  }

  /** The examined paths whose text the transform changes. */
  function Modified(files: seq<(Path, Option<string>)>): (r: seq<Path>)
    ensures |r| <= |files|
  {
    if |files| == 0 then []
    else
      Modified(files[..|files| - 1]) + ModifiedOne(files[|files| - 1])
  }

  /** The path of one walked file when a dry run reports it modified. */
  function ModifiedOne(file: (Path, Option<string>)): seq<Path> {
    if Processed(file.0) && FixFile(file.1, true).0 then [file.0] else []
  }

  /** The texts written back by a run that is not a dry run. */
  function Rewrites(files: seq<(Path, Option<string>)>): (r: seq<(Path, string)>)
    ensures |r| <= |files|
  {
    if |files| == 0 then []
    else
      Rewrites(files[..|files| - 1]) + RewriteOne(files[|files| - 1])
  }

  /** The path and new text of one walked file when a real run rewrites it. */
  function RewriteOne(file: (Path, Option<string>)): seq<(Path, string)> {
    var fixed := FixFile(file.1, false);
    if Processed(file.0) && fixed.1.Some? then [(file.0, fixed.1.value)] else []
  }

  /** One file is rewritten exactly when a dry run reports it modified, and the new text
      ends in exactly one newline. */
  lemma RewriteOneMatches(file: (Path, Option<string>))
    ensures |RewriteOne(file)| == |ModifiedOne(file)|
    ensures forall k :: 0 <= k < |RewriteOne(file)| ==>
              RewriteOne(file)[k].0 == ModifiedOne(file)[k]
              && IsSuffix("\n", RewriteOne(file)[k].1) && !IsSuffix("\n\n", RewriteOne(file)[k].1)
  {
    var dry, wet := FixFile(file.1, true), FixFile(file.1, false);
    assert wet.1.Some? <==> dry.0;
  }

  /** Every modified path was examined, and every examined path is a processed file. */
  lemma {:induction false} ModifiedAreExamined(files: seq<(Path, Option<string>)>)
    ensures forall p :: p in Modified(files) ==> p in Examined(files)
    ensures forall p :: p in Examined(files) ==> Processed(p)
  {
    if |files| > 0 {
      var init := files[..|files| - 1];
      ModifiedAreExamined(init);
    }
  }

  /** The written texts go, in order, to exactly the modified paths, and each ends in
      exactly one newline. */
  lemma {:induction false} RewritesMatchModified(files: seq<(Path, Option<string>)>)
    ensures |Rewrites(files)| == |Modified(files)|
    ensures forall k :: 0 <= k < |Rewrites(files)| ==>
              Rewrites(files)[k].0 == Modified(files)[k]
              && IsSuffix("\n", Rewrites(files)[k].1) && !IsSuffix("\n\n", Rewrites(files)[k].1)
  {
    if |files| > 0 {
      var init, last := files[..|files| - 1], files[|files| - 1];
      RewritesMatchModified(init);
      RewriteOneMatches(last);
      var a: seq<(Path, string)>, ra := Rewrites(init), RewriteOne(last);
      var b: seq<Path>, rb := Modified(init), ModifiedOne(last);
      forall k | 0 <= k < |a + ra|
        ensures (a + ra)[k].0 == (b + rb)[k]
                && IsSuffix("\n", (a + ra)[k].1) && !IsSuffix("\n\n", (a + ra)[k].1)
      {
        if k < |a| {
          assert (a + ra)[k] == a[k] && (b + rb)[k] == b[k];
        } else {
          assert (a + ra)[k] == ra[k - |a|] && (b + rb)[k] == rb[k - |a|];
        }
      }
    }
  }

  /** What `process_directory` visits never lies inside an excluded directory below the
      directory it was given. */
  lemma ExaminedStayOutOfExcluded(root: Path, entries: seq<Entry>)
    ensures forall p :: p in Examined(Walk(root, entries)) ==> Below(root, p) && Processed(p)
  {
    var files := Walk(root, entries);
    WalkStaysOutOfExcluded(root, entries);
    ExaminedAreWalked(files);
    ModifiedAreExamined(files);
  }

  lemma {:induction false} ExaminedAreWalked(files: seq<(Path, Option<string>)>)
    ensures forall p :: p in Examined(files) ==> exists i :: 0 <= i < |files| && files[i].0 == p
  {
    if |files| > 0 {
      var init := files[..|files| - 1];
      ExaminedAreWalked(init);
      forall p | p in Examined(files)
        ensures exists i :: 0 <= i < |files| && files[i].0 == p
      {
        if p in Examined(init) {
          var i :| 0 <= i < |init| && init[i].0 == p;
          assert files[i] == init[i];
        } else {
          assert files[|files| - 1].0 == p;
        }
      }
    }
  }

  /** One more visited file extends each list by at most that file. */
  lemma Step(files: seq<(Path, Option<string>)>, i: nat, dryRun: bool)
    requires i < |files|
    ensures var f := files[i]; var fixed := FixFile(f.1, dryRun);
            Examined(files[..i + 1]) == Examined(files[..i]) + (if Processed(f.0) then [f.0] else [])
            && Modified(files[..i + 1]) == Modified(files[..i]) + (if Processed(f.0) && fixed.0 then [f.0] else [])
            && (!dryRun ==> Rewrites(files[..i + 1]) == Rewrites(files[..i])
                              + (if Processed(f.0) && fixed.1.Some? then [(f.0, fixed.1.value)] else []))
  {
    assert files[..i + 1][..i] == files[..i];
  }

  /** `process_directory`: the files of the tree in `os.walk` order with excluded
      directories pruned; each processed file is examined and fixed. */
  method ProcessDirectory(root: Path, entries: seq<Entry>, dryRun: bool)
    returns (modified: seq<Path>, examined: seq<Path>, written: seq<(Path, string)>)
    ensures examined == Examined(Walk(root, entries))
    ensures modified == Modified(Walk(root, entries))
    ensures written == if dryRun then [] else Rewrites(Walk(root, entries))
  {
    var files := Walk(root, entries);
    modified, examined, written := [], [], [];
    var i := 0;
    while i < |files|
      invariant 0 <= i <= |files|
      invariant examined == Examined(files[..i]) && modified == Modified(files[..i])
      invariant written == if dryRun then [] else Rewrites(files[..i])
    {
      var (path, content) := files[i];
      Step(files, i, dryRun);
      var process := ShouldProcessFile(path);
      if process {
        examined := examined + [path];
        var (changed, text) := FixFile(content, dryRun);
        if changed {
          modified := modified + [path];
        }
        if text.Some? {
          written := written + [(path, text.value)];
        }
      }
      i := i + 1;
    }
    assert files[..i] == files;
  }
}
