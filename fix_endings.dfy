/** The normaliser `fix_endings.py`: line endings are normalised to "\n" first, then every
    line is right-stripped and the text ends in exactly one "\n". Unlike the other two
    normalisers, its transform is idempotent. */
module FixEndings {
  import opened Wrappers
  import opened Text
  import opened FileTree
  import opened FixFileEnding

  /** The extensions this script processes: those of the other normalisers, plus ".svelte",
      ".gitignore" and ".gitattributes". */
  const Extensions: set<string> :=
    {".py", ".go", ".js", ".jsx", ".ts", ".tsx", ".svelte", ".html", ".css", ".scss", ".md",
     ".txt", ".yml", ".yaml", ".json", ".toml", ".xml", ".sh", ".bat", ".ps1", ".nsi", ".sql",
     ".cfg", ".conf", ".ini", ".gitignore", ".gitattributes"}

  /** Extension-less file names processed whatever their content (compared in lower case). */
  const PlainNames: set<string> := {"makefile", "dockerfile", "license", "readme"}

  /** `should_process_file` as written: an excluded component rejects the file, then the
      lower-cased suffix must be listed, or be empty with a listed plain name. */
  predicate ProcessedAsWritten(p: Path) {
    !InExcludedDir(p)
    && (Lower(Suffix(Name(p))) in Extensions
        || (Lower(Suffix(Name(p))) == "" && Lower(Name(p)) in PlainNames))
  }

  /** A name whose only dot is its first character has an empty suffix, and its lower-case
      form is none of the plain names, so `should_process_file` as written refuses it. */
  lemma DotFileNeverProcessedAsWritten(name: string)
    requires |name| >= 2 && name[0] == '.' && '.' !in name[1..]
    ensures !ProcessedAsWritten([name])
  {
    DotFileHasNoSuffix(name);
    assert Name([name]) == name;
    assert Lower("") == "";
    assert "" !in Extensions;
    assert Lower(name)[0] == '.';
  }

  /** ".gitignore" is listed as an extension, yet `Path.suffix` of ".gitignore" is empty, so
      a file of that name is never processed. */
  lemma GitignoreNeverProcessed()
    ensures ".gitignore" in Extensions
    ensures !ProcessedAsWritten([".gitignore"])
  {
    var name := ".gitignore";
    assert name[1..] == "gitignore";
    DotFileNeverProcessedAsWritten(name);
  }

  /** The dot-files listed among the extensions, matched by their whole name. */
  const DotFiles: set<string> := {".gitignore", ".gitattributes"}

  /** `should_process_file` as intended: the listed dot-files are processed too. */
  predicate Processed(p: Path) {
    ProcessedAsWritten(p)
    || (!InExcludedDir(p) && Lower(Suffix(Name(p))) == "" && Lower(Name(p)) in DotFiles)
  }

  /** The intended filter accepts a listed dot-file outside the excluded directories. */
  lemma DotFileProcessed(p: Path)
    requires |p| >= 1 && !InExcludedDir(p)
    requires var name := Name(p); |name| >= 2 && name[0] == '.' && '.' !in name[1..]
    requires Lower(Name(p)) in DotFiles
    ensures Processed(p)
  {
    DotFileHasNoSuffix(Name(p));
    assert Lower("") == "";
  }

  /** In particular, ".gitignore" and ".gitattributes" are processed. */
  lemma GitignoreProcessed()
    ensures Processed([".gitignore"])
  {
    var a := ".gitignore";
    assert Name([a]) == a && a[1..] == "gitignore";
    assert Lower(a) == a;
    assert !InExcludedDir([a]) by {
      assert [a][0] == a;
    }
    DotFileProcessed([a]);
  }

  lemma GitattributesProcessed()
    ensures Processed([".gitattributes"])
  {
    var b := ".gitattributes";
    assert Name([b]) == b && b[1..] == "gitattributes";
    assert Lower(b) == b;
    assert !InExcludedDir([b]) by {
      assert [b][0] == b;
    }
    DotFileProcessed([b]);
  }

  /** The intended filter still refuses anything inside an excluded directory, and takes an
      extension-less name only from the plain names and the dot-files. */
  lemma ProcessedOnlyListed(p: Path)
    requires Processed(p)
    ensures !InExcludedDir(p)
    ensures Lower(Suffix(Name(p))) == "" ==> Lower(Name(p)) in PlainNames + DotFiles
  {
    assert "" !in Extensions;
  }

  /** `should_process_file`: the scan of the path's components, then the name tests. */
  method ShouldProcessFile(p: Path) returns (r: bool)
    ensures r <==> ProcessedAsWritten(p)
  {
    var i := 0;
    while i < |p|
      invariant 0 <= i <= |p|
      invariant forall k :: 0 <= k < i ==> p[k] !in ExcludeDirs
    {
      if p[i] in ExcludeDirs {
        return false;
      }
      i := i + 1;
    }
    var ext := Lower(Suffix(Name(p)));
    if ext in Extensions {
      return true;
    }
    if ext == "" {
      var name := Lower(Name(p));
      if name in PlainNames {
        return true;
      }
    }
    return false;
  }

  /** `text.replace("\r\n", "\n").replace("\r", "\n")`. */
  function Normalize(t: string): (r: string)
    ensures '\r' !in r
    ensures '\r' !in t ==> r == t
  {
    var u := ReplaceCrLf(t);
    if '\r' !in t then
      ReplaceCrLfWithoutCr(t);
      assert ReplaceChar(u, '\r', '\n') == u;
      ReplaceChar(u, '\r', '\n')
    else
      ReplaceChar(u, '\r', '\n')
  }

  /** Every line right-stripped. */
  function RstripLines(lines: seq<string>): (r: seq<string>)
    ensures |r| == |lines|
    ensures forall k :: 0 <= k < |r| ==> IsPrefix(r[k], lines[k])
  {
    seq(|lines|, k requires 0 <= k < |lines| => Rstrip(lines[k]))
  }

  /** The transform of `fix_file`: normalise line endings, right-strip every line, drop the
      trailing whitespace of the whole text and add one "\n". */
  function Transform(t: string): (r: string)
    ensures |r| >= 1 && r[|r| - 1] == '\n'
    ensures r == "\n" || (|r| >= 2 && !IsSpace(r[|r| - 2]))
  {
    Rstrip(Join(RstripLines(Split(Normalize(t), '\n')), '\n')) + "\n"
  }

  /** No non-empty "\n"-separated line of `s` ends in whitespace. */
  predicate CleanLines(s: string) {
    forall i, j {:trigger s[i], s[j]} :: 0 <= i < |s| && j == i + 1 < |s| && s[j] == '\n' && s[i] != '\n' ==> !IsSpace(s[i])
  }

  /** A line that does not end in whitespace. */
  predicate Stripped(line: string) {
    |line| == 0 || !IsSpace(line[|line| - 1])
  }

  lemma {:induction false} SplitPartsAvoid(s: string, c: char, x: char)
    requires x !in s
    ensures forall k :: 0 <= k < |Split(s, c)| ==> x !in Split(s, c)[k]
    decreases |s|
  {
    if c in s {
      var i := IndexOf(s, c);
      SplitPartsAvoid(s[i + 1..], c, x);
      var parts := Split(s, c);
      assert parts == [s[..i]] + Split(s[i + 1..], c);
      forall k | 0 <= k < |parts|
        ensures x !in parts[k]
      {
        if k == 0 {
          assert x !in s[..i];
        } else {
          assert parts[k] == Split(s[i + 1..], c)[k - 1];
        }
      }
    }
  }

  lemma {:induction false} JoinAvoids(parts: seq<string>, c: char, x: char)
    requires x != c && forall k :: 0 <= k < |parts| ==> x !in parts[k]
    ensures x !in Join(parts, c)
    decreases |parts|
  {
    if |parts| > 1 {
      JoinAvoids(parts[1..], c, x);
    }
  }

  /** The transform leaves no "\r". */
  lemma TransformHasNoCr(t: string)
    ensures '\r' !in Transform(t)
  {
    var n := Normalize(t);
    var lines := Split(n, '\n');
    SplitPartsAvoid(n, '\n', '\r');
    var stripped := RstripLines(lines);
    forall k | 0 <= k < |stripped|
      ensures '\r' !in stripped[k]
    {
      assert stripped[k] == lines[k][..|stripped[k]|];
    }
    JoinAvoids(stripped, '\n', '\r');
    var j := Join(stripped, '\n');
    var p := Rstrip(j);
    assert p == j[..|p|];
    assert Transform(t) == p + "\n";
  }

  /** Joining stripped lines without "\n" gives clean lines. */
  lemma {:induction false} JoinClean(lines: seq<string>)
    requires forall k :: 0 <= k < |lines| ==> '\n' !in lines[k] && Stripped(lines[k])
    ensures CleanLines(Join(lines, '\n'))
    decreases |lines|
  {
    if |lines| > 1 {
      JoinClean(lines[1..]);
      var a := lines[0];
      var rest := Join(lines[1..], '\n');
      var s := Join(lines, '\n');
      assert s == a + "\n" + rest;
      forall i, j | 0 <= i < |s| && j == i + 1 < |s| && s[j] == '\n' && s[i] != '\n'
        ensures !IsSpace(s[i])
      {
        if j > |a| {
          assert s[i] == rest[i - |a| - 1] && s[j] == rest[j - |a| - 1];
        } else if j == |a| {
          assert s[i] == a[|a| - 1];
        }
      }
    }
  }

  lemma CleanPrefix(s: string, n: nat)
    requires CleanLines(s) && n <= |s|
    ensures CleanLines(s[..n])
  {
    var p := s[..n];
    forall i, j | 0 <= i < |p| && j == i + 1 < |p| && p[j] == '\n' && p[i] != '\n'
      ensures !IsSpace(p[i])
    {
      assert p[i] == s[i] && p[j] == s[j];
    }
  }

  /** No line of the output ends in whitespace. */
  lemma TransformClean(t: string)
    ensures CleanLines(Transform(t))
  {
    var lines := Split(Normalize(t), '\n');
    var stripped := RstripLines(lines);
    StrippedLinesClean(Normalize(t));
    var j := Join(stripped, '\n');
    var p := Rstrip(j);
    assert p == j[..|p|];
    CleanPrefix(j, |p|);
    CleanNewlined(p);
  }

  lemma StrippedLinesClean(text: string)
    ensures CleanLines(Join(RstripLines(Split(text, '\n')), '\n'))
  {
    var lines := Split(text, '\n');
    var stripped := RstripLines(lines);
    forall k | 0 <= k < |stripped|
      ensures '\n' !in stripped[k] && Stripped(stripped[k])
    {
      assert stripped[k] == lines[k][..|stripped[k]|];
    }
    JoinClean(stripped);
  }

  /** Adding one "\n" to clean text that does not end in whitespace keeps it clean. */
  lemma CleanNewlined(p: string)
    requires CleanLines(p) && Stripped(p)
    ensures CleanLines(p + "\n")
  {
    var r := p + "\n";
    forall i, k | 0 <= i < |r| && k == i + 1 < |r| && r[k] == '\n' && r[i] != '\n'
      ensures !IsSpace(r[i])
    {
      assert r[i] == p[i];
      if k < |p| {
        assert r[k] == p[k];
      }
    }
  }

  lemma {:induction false} SplitSnoc(s: string, c: char)
    ensures Split(s + [c], c) == Split(s, c) + [""]
    decreases |s|
  {
    var t := s + [c];
    if c in s {
      var i := IndexOf(s, c);
      IndexOfAt(t, c, i);
      assert t[..i] == s[..i];
      assert t[i + 1..] == s[i + 1..] + [c];
      SplitSnoc(s[i + 1..], c);
    } else {
      IndexOfAt(t, c, |s|);
      assert t[..|s|] == s;
      assert t[|s| + 1..] == "";
    }
  }

  lemma {:induction false} JoinSnoc(parts: seq<string>, c: char)
    requires |parts| >= 1
    ensures Join(parts + [""], c) == Join(parts, c) + [c]
    decreases |parts|
  {
    if |parts| == 1 {
      assert parts + [""] == [parts[0], ""];
    } else {
      JoinSnoc(parts[1..], c);
      assert (parts + [""])[1..] == parts[1..] + [""];
    }
  }

  lemma RstripStripped(s: string)
    requires Stripped(s)
    ensures Rstrip(s) == s
  {
  }

  /** Every line of clean text whose last character is not whitespace is already stripped. */
  lemma {:induction false} SplitStripped(s: string)
    requires CleanLines(s) && Stripped(s)
    ensures forall k :: 0 <= k < |Split(s, '\n')| ==> Stripped(Split(s, '\n')[k])
    decreases |s|
  {
    if '\n' in s {
      var i := IndexOf(s, '\n');
      var rest := s[i + 1..];
      forall a, b | 0 <= a < |rest| && b == a + 1 < |rest| && rest[b] == '\n' && rest[a] != '\n'
        ensures !IsSpace(rest[a])
      {
        assert rest[a] == s[i + 1 + a] && rest[b] == s[i + 1 + b];
      }
      if |rest| > 0 {
        assert rest[|rest| - 1] == s[|s| - 1];
      }
      SplitStripped(rest);
      if i > 0 {
        assert s[i - 1] != '\n' by {
          assert s[i - 1] == s[..i][i - 1];
        }
        assert !IsSpace(s[i - 1]);
      }
      var parts := Split(s, '\n');
      assert parts == [s[..i]] + Split(rest, '\n');
      forall k | 0 <= k < |parts|
        ensures Stripped(parts[k])
      {
        if k > 0 {
          assert parts[k] == Split(rest, '\n')[k - 1];
        }
      }
    }
  }

  /** Applying the transform twice gives what applying it once does. */
  lemma TransformIdempotent(t: string)
    ensures Transform(Transform(t)) == Transform(t)
  {
    var r := Transform(t);
    TransformHasNoCr(t);
    TransformClean(t);
    var p := r[..|r| - 1];
    assert r == p + "\n";
    CleanPrefix(r, |p|);
    CleanTextIsFixed(p);
  }

  /** Text without "\r" whose lines are clean, and whose last character is not whitespace,
      is a fixed point once one "\n" is added. */
  lemma CleanTextIsFixed(p: string)
    requires '\r' !in p && CleanLines(p) && Stripped(p)
    ensures Transform(p + "\n") == p + "\n"
  {
    var lines := Split(p, '\n');
    NewlinedLines(p);
    SplitStripped(p);
    StrippedLinesKept(lines);
    RejoinNewlined(p);
    RstripNewlined(p);
  }

  lemma NewlinedLines(p: string)
    requires '\r' !in p
    ensures Split(Normalize(p + "\n"), '\n') == Split(p, '\n') + [""]
  {
    assert Normalize(p + "\n") == p + "\n";
    SplitSnoc(p, '\n');
  }

  lemma StrippedLinesKept(lines: seq<string>)
    requires forall k :: 0 <= k < |lines| ==> Stripped(lines[k])
    ensures RstripLines(lines + [""]) == lines + [""]
  {
    var again := RstripLines(lines + [""]);
    forall k | 0 <= k < |again|
      ensures again[k] == (lines + [""])[k]
    {
      if k < |lines| {
        RstripStripped(lines[k]);
      }
    }
  }

  lemma RejoinNewlined(p: string)
    ensures Join(Split(p, '\n') + [""], '\n') == p + "\n"
  {
    SplitSnoc(p, '\n');
    JoinSplit(p + "\n", '\n');
  }

  lemma RstripNewlined(p: string)
    requires Stripped(p)
    ensures Rstrip(p + "\n") == p
  {
    var r := p + "\n";
    assert r[..|p|] == p;
    RstripStripped(p);
  }

  /** What `fix_file` reads: nothing, when the file cannot be read; otherwise its bytes and
      their UTF-8 decoding, when they are valid UTF-8. */
  datatype Content = Unreadable | Raw(bytes: seq<byte>, text: Option<string>)

  /** `fix_file`: whether the file was rewritten, and with what. Unreadable files, files
      holding a NUL byte and files that are not UTF-8 are skipped; otherwise the file is
      rewritten exactly when the transform changes its text. */
  function FixFile(content: Content): (r: (bool, Option<string>))
    ensures r.0 <==> r.1.Some?
    ensures content.Unreadable? || (content.Raw? && (0 in content.bytes || content.text.None?))
            ==> r == (false, None)
    ensures content.Raw? && 0 !in content.bytes && content.text.Some? ==>
              (r.0 <==> Transform(content.text.value) != content.text.value)
              && (r.0 ==> r.1.value == Transform(content.text.value))
  {
    match content
    case Unreadable => (false, None)
    case Raw(bytes, text) =>
      if 0 in bytes then (false, None)
      else if text.None? then (false, None)
      else
        var newText := Transform(text.value);
        if newText != text.value then (true, Some(newText)) else (false, None)
  }

  /** A file `fix_file` rewrote is left alone by a second run. */
  lemma RewrittenFileIsStable(content: Content, bytes: seq<byte>)
    requires FixFile(content).0
    requires 0 !in bytes
    ensures !FixFile(Raw(bytes, FixFile(content).1)).0
  {
    TransformIdempotent(content.text.value);
  }

  /** Which files `main` examines: with the filter as written, or with the intended one. */
  predicate Examines(intended: bool, p: Path) {
    if intended then Processed(p) else ProcessedAsWritten(p)
  }

  /** The counts `main` prints: files examined and files rewritten, among the visited
      files with their contents, under the filter as written or the intended one. */
  function Counts(files: seq<(Path, Content)>, intended: bool): (r: (nat, nat))
    ensures r.1 <= r.0 <= |files|
  {
    if |files| == 0 then (0, 0)
    else
      var c := Counts(files[..|files| - 1], intended);
      var last := files[|files| - 1];
      var examined := Examines(intended, last.0);
      (c.0 + (if examined then 1 else 0), c.1 + (if examined && FixFile(last.1).0 then 1 else 0))
  }

  /** A tree whose files are all unreadable is never rewritten, whichever filter is used. */
  lemma {:induction false} NothingReadableNothingRewritten(files: seq<(Path, Content)>,
                                                           intended: bool)
    requires forall k :: 0 <= k < |files| ==> files[k].1.Unreadable?
    ensures Counts(files, intended).1 == 0
  {
    if |files| > 0 {
      NothingReadableNothingRewritten(files[..|files| - 1], intended);
    }
  }

  lemma CountsStep(files: seq<(Path, Content)>, intended: bool, i: nat)
    requires i < |files|
    ensures var c := Counts(files[..i], intended); var f := files[i]; var e := Examines(intended, f.0);
            Counts(files[..i + 1], intended).0 == c.0 + (if e then 1 else 0)
            && Counts(files[..i + 1], intended).1 == c.1 + (if e && FixFile(f.1).0 then 1 else 0)
  {
    assert files[..i + 1][..i] == files[..i];
  }

  /** The intended filter examines and rewrites at least what the filter as written does. */
  lemma {:induction false} CorrectedCountsCover(files: seq<(Path, Content)>)
    ensures Counts(files, false).0 <= Counts(files, true).0
    ensures Counts(files, false).1 <= Counts(files, true).1
  {
    if |files| > 0 {
      CorrectedCountsCover(files[..|files| - 1]);
      ExaminesMore(files[|files| - 1].0);
    }
  }

  /** Both filters count alike on a tree holding no file that only the intended filter
      takes (no listed dot-file). */
  lemma {:induction false} CountsAgreeWithoutDotFiles(files: seq<(Path, Content)>)
    requires forall k :: 0 <= k < |files| && Processed(files[k].0) ==> ProcessedAsWritten(files[k].0)
    ensures Counts(files, false) == Counts(files, true)
  {
    if |files| > 0 {
      var init, last := files[..|files| - 1], files[|files| - 1];
      assert Counts(init, false) == Counts(init, true) by {
        forall k | 0 <= k < |init| && Processed(init[k].0)
          ensures ProcessedAsWritten(init[k].0)
        {
          assert init[k] == files[k];
        }
        CountsAgreeWithoutDotFiles(init);
      }
      assert Examines(false, last.0) == Examines(true, last.0) by {
        ExaminesMore(last.0);
      }
    }
  }

  /** Whatever the filter as written examines, the intended one examines too. */
  lemma ExaminesMore(p: Path)
    ensures Examines(false, p) ==> Examines(true, p)
    ensures Examines(false, p) == ProcessedAsWritten(p) && Examines(true, p) == Processed(p)
  {
  }

  /** A tree holding only a ".gitignore" that `fix_file` would rewrite: `main` as written
      examines and rewrites nothing, where the intended filter examines and rewrites it. */
  lemma GitignoreCountedOnlyWhenCorrected(content: Content)
    requires FixFile(content).0
    ensures Counts([([".gitignore"], content)], false) == (0, 0)
    ensures Counts([([".gitignore"], content)], true) == (1, 1)
  {
    var files := [([".gitignore"], content)];
    assert Examines(false, [".gitignore"]) == false by {
      GitignoreNeverProcessed();
    }
    assert Examines(true, [".gitignore"]) by {
      GitignoreProcessed();
    }
    assert files[..0] == [];
  }

  /** `main`: walks the current directory with excluded directories pruned, counting the
      files `should_process_file` accepts and those `fix_file` rewrote; the walk yields the
      contents here. */
  method CountFiles(files: seq<(Path, Content)>) returns (examined: nat, modified: nat)
    ensures (examined, modified) == Counts(files, false)
  {
    examined, modified := 0, 0;
    var i := 0;
    while i < |files|
      invariant 0 <= i <= |files|
      invariant examined == Counts(files[..i], false).0
      invariant modified == Counts(files[..i], false).1
    {
      var (path, content) := files[i];
      CountsStep(files, false, i);
      var process := ShouldProcessFile(path);
      if process {
        examined := examined + 1;
        if FixFile(content).0 {
          modified := modified + 1;
        }
      }
      i := i + 1;
    }
    assert files[..i] == files;
  }
}
