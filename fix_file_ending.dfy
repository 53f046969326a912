/** The pre-commit hook `python/scripts/fix_file_endings.py`: trailing blanks removed, line
    endings made LF, exactly one final newline, and a report of what changed. The text
    transform is shared with the repository-root `fix_file_endings.py`. File contents are
    decoded text (the UTF-8 / Latin-1 decoding and re-encoding are left abstract). */
module FixFileEnding {
  import opened Wrappers
  import opened Text
  import opened FileTree

  predicate IsBlank(c: char) {
    c == ' ' || c == '\t'
  }

  /** The length of the run of blanks `s` starts with. */
  function BlankRun(s: string): (n: nat)
    ensures n <= |s| && (forall k :: 0 <= k < n ==> IsBlank(s[k]))
    ensures n < |s| ==> !IsBlank(s[n])
  {
    if |s| == 0 || !IsBlank(s[0]) then 0 else 1 + BlankRun(s[1..])
  }

  /** `re.sub(r"[ \t]+$", "", s, flags=re.MULTILINE)`: every run of spaces and tabs that
      is followed by "\n" or ends the text is removed. */
  function StripLineBlanks(s: string): (r: string)
    ensures |r| <= |s|
    ensures forall k :: 0 <= k < |r| ==> r[k] in s
    ensures |s| > 0 && !IsBlank(s[0]) ==> |r| > 0 && r[0] == s[0]
    decreases |s|
  {
    if |s| == 0 then ""
    else
      var n := BlankRun(s);
      if n == 0 then [s[0]] + StripLineBlanks(s[1..])
      else if n == |s| || s[n] == '\n' then StripLineBlanks(s[n..])
      else s[..n] + StripLineBlanks(s[n..])
  }

  /** No "\n"-separated line ends in a space or a tab: every blank is followed by a
      character other than "\n". */
  predicate NoBlankAtLineEnd(s: string) {
    (|s| == 0 || !IsBlank(s[|s| - 1]))
    && forall i, j {:trigger s[i], s[j]} :: 0 <= i < |s| && j == i + 1 < |s| && IsBlank(s[i]) ==> s[j] != '\n'
  }

  lemma {:induction false} StripLineBlanksClean(s: string)
    ensures NoBlankAtLineEnd(StripLineBlanks(s))
    decreases |s|
  {
    if |s| > 0 {
      var n := BlankRun(s);
      var r := StripLineBlanks(s);
      if n == 0 {
        StripLineBlanksClean(s[1..]);
        var t := StripLineBlanks(s[1..]);
        assert r == [s[0]] + t;
        CleanCons(s[0], t);
      } else if n == |s| || s[n] == '\n' {
        StripLineBlanksClean(s[n..]);
      } else {
        StripLineBlanksClean(s[n..]);
        var t := StripLineBlanks(s[n..]);
        assert r == s[..n] + t;
        assert |t| > 0 && t[0] == s[n];
        CleanBlanksThen(s[..n], t);
      }
    }
  }

  /** A non-blank character in front of clean text keeps it clean. */
  lemma CleanCons(c: char, t: string)
    requires !IsBlank(c) && NoBlankAtLineEnd(t)
    ensures NoBlankAtLineEnd([c] + t)
  {
    var r := [c] + t;
    forall i, j | 0 <= i < |r| && j == i + 1 < |r| && IsBlank(r[i])
      ensures r[j] != '\n'
    {
      assert i > 0 && r[i] == t[i - 1] && r[j] == t[j - 1];
    }
  }

  /** Blanks in front of clean text that starts with neither a blank nor "\n" keep it
      clean. */
  lemma CleanBlanksThen(b: string, t: string)
    requires forall k :: 0 <= k < |b| ==> IsBlank(b[k])
    requires NoBlankAtLineEnd(t) && |t| > 0 && !IsBlank(t[0]) && t[0] != '\n'
    ensures NoBlankAtLineEnd(b + t)
  {
    var r := b + t;
    forall i, j | 0 <= i < |r| && j == i + 1 < |r| && IsBlank(r[i])
      ensures r[j] != '\n'
    {
      if i >= |b| {
        assert r[i] == t[i - |b|] && r[j] == t[j - |b|];
      } else if j < |b| {
        assert r[j] == b[j];
      } else {
        assert r[j] == t[0];
      }
    }
  }

  lemma CleanSuffix(s: string, n: nat)
    requires NoBlankAtLineEnd(s) && n <= |s|
    ensures NoBlankAtLineEnd(s[n..])
  {
    var t := s[n..];
    forall i, j | 0 <= i < |t| && j == i + 1 < |t| && IsBlank(t[i])
      ensures t[j] != '\n'
    {
      assert t[i] == s[n + i] && t[j] == s[n + j];
    }
  }

  /** Text that already has no blank at a line end is left as it is. */
  lemma {:induction false} StripLineBlanksKeepsClean(s: string)
    requires NoBlankAtLineEnd(s)
    ensures StripLineBlanks(s) == s
    decreases |s|
  {
    if |s| > 0 {
      var n := BlankRun(s);
      if n == 0 {
        CleanSuffix(s, 1);
        StripLineBlanksKeepsClean(s[1..]);
        assert s == [s[0]] + s[1..];
      } else {
        assert IsBlank(s[n - 1]);
        assert n < |s| && s[n] != '\n';
        CleanSuffix(s, n);
        StripLineBlanksKeepsClean(s[n..]);
        assert s == s[..n] + s[n..];
      }
    }
  }

  lemma {:induction false} ReplaceCrLfWithoutCr(s: string)
    requires '\r' !in s
    ensures ReplaceCrLf(s) == s
    decreases |s|
  {
    if |s| > 0 {
      assert '\r' !in s[1..];
      ReplaceCrLfWithoutCr(s[1..]);
      assert s == [s[0]] + s[1..];
    }
  }

  /** The newline-trimming tail of both transforms: exactly one final "\n". */
  function OneFinalNewline(s: string): (r: string)
    ensures IsSuffix("\n", r) && !IsSuffix("\n\n", r)
  {
    var p := RstripChar(s, '\n');
    assert (p + "\n")[|p + "\n"| - 1] == '\n';
    p + "\n"
  }

  /** Trimming the final newlines puts no blank at the end of a line. */
  lemma OneFinalNewlineClean(s: string)
    requires NoBlankAtLineEnd(s)
    ensures NoBlankAtLineEnd(OneFinalNewline(s))
  {
    var p := RstripChar(s, '\n');
    var r := OneFinalNewline(s);
    assert r == p + "\n";
    if |p| > 0 {
      var i := |p| - 1;
      if i + 1 < |s| {
        assert s[i + 1] == '\n';
        assert s[i] == p[i];
      }
    }
    forall i, j | 0 <= i < |r| && j == i + 1 < |r| && IsBlank(r[i])
      ensures r[j] != '\n'
    {
      assert i < |p| && s[i] == p[i];
      assert j < |p|;
      assert r[j] == p[j] == s[j];
    }
  }

  /** Text with no blank at a line end, a single final newline and no "\r" comes back
      unchanged. */
  lemma OneFinalNewlineKeeps(s: string)
    requires |s| >= 1 && s[|s| - 1] == '\n' && (|s| == 1 || s[|s| - 2] != '\n')
    ensures OneFinalNewline(s) == s
  {
    assert RstripChar(s, '\n') == s[..|s| - 1];
  }

  /** The transform as written: blanks are stripped before "\r\n" becomes "\n", so blanks
      in front of a CRLF survive. */
  function FixEndingAsWritten(s: string): (r: string)
    ensures IsSuffix("\n", r) && !IsSuffix("\n\n", r)
  {
    OneFinalNewline(ReplaceCrLf(StripLineBlanks(s)))
  }

  /** A blank before "\r\n" is still at the end of its line after the transform. */
  lemma BlankBeforeCrLfSurvives()
    ensures FixEndingAsWritten("a \r\n") == "a \n"
    ensures !NoBlankAtLineEnd(FixEndingAsWritten("a \r\n"))
  {
    var s := "a \r\n";
    assert BlankRun(s) == 0 && BlankRun(s[1..]) == 1;
    assert s[1..][1] == '\r';
    assert BlankRun(s[2..]) == 0 && BlankRun(s[3..]) == 0;
    assert StripLineBlanks(s[3..]) == "\n";
    assert StripLineBlanks(s[2..]) == "\r\n";
    assert StripLineBlanks(s[1..]) == " \r\n";
    assert StripLineBlanks(s) == s;
    var t := ReplaceCrLf(s);
    assert ReplaceCrLf(s[2..]) == "\n";
    assert t == "a \n";
    assert t[..2] == "a ";
    assert RstripChar("a ", '\n') == "a ";
    assert RstripChar(t, '\n') == "a ";
    var r := OneFinalNewline(t);
    assert r == "a \n";
    assert IsBlank(r[1]) && r[2] == '\n';
  }

  /** The transform as intended: line endings are normalised first, so that no line of
      the result ends in a blank, whatever the input. */
  function FixEnding(s: string): (r: string)
    ensures IsSuffix("\n", r) && !IsSuffix("\n\n", r)
    ensures NoBlankAtLineEnd(r)
  {
    StripLineBlanksClean(ReplaceCrLf(s));
    OneFinalNewlineClean(StripLineBlanks(ReplaceCrLf(s)));
    OneFinalNewline(StripLineBlanks(ReplaceCrLf(s)))
  }

  /** On text without "\r" the two agree. */
  lemma AsWrittenAgreesWithoutCr(s: string)
    requires '\r' !in s
    ensures FixEndingAsWritten(s) == FixEnding(s)
  {
    ReplaceCrLfWithoutCr(s);
    assert '\r' !in StripLineBlanks(s);
    ReplaceCrLfWithoutCr(StripLineBlanks(s));
  }

  /** LF-only text with no trailing blanks and exactly one final newline is a fixed point. */
  lemma CleanTextUnchanged(s: string)
    requires '\r' !in s && NoBlankAtLineEnd(s)
    requires |s| >= 1 && s[|s| - 1] == '\n' && (|s| == 1 || s[|s| - 2] != '\n')
    ensures FixEnding(s) == s
  {
    ReplaceCrLfWithoutCr(s);
    StripLineBlanksKeepsClean(s);
    OneFinalNewlineKeeps(s);
  }

  /** On text without "\r" a second pass changes nothing. */
  lemma FixEndingStableWithoutCr(s: string)
    requires '\r' !in s
    ensures '\r' !in FixEnding(s)
    ensures FixEnding(FixEnding(s)) == FixEnding(s)
  {
    ReplaceCrLfWithoutCr(s);
    var t := StripLineBlanks(s);
    assert '\r' !in t;
    var p := RstripChar(t, '\n');
    assert '\r' !in p by {
      assert p == t[..|p|];
    }
    var r := FixEnding(s);
    assert r == p + "\n";
    assert '\r' !in r;
    assert r[|r| - 1] == '\n';
    if |r| >= 2 {
      assert r[|r| - 2..] != "\n\n";
    }
    CleanTextUnchanged(r);
  }

  /** The extensions `is_text_file` rejects without reading the file. */
  const BinaryExtensions: set<string> :=
    {".png", ".jpg", ".jpeg", ".gif", ".ico", ".woff", ".woff2", ".ttf", ".eot", ".pdf",
     ".exe", ".dll", ".zip", ".tar", ".gz", ".7z"}

  newtype byte = b: int | 0 <= b < 256

  function PrintableCount(bytes: seq<byte>): (n: nat)
    ensures n <= |bytes|
  {
    if |bytes| == 0 then 0
    else PrintableCount(bytes[..|bytes| - 1]) + (if 32 <= bytes[|bytes| - 1] <= 126 then 1 else 0)
  }

  /** `is_text_file`: by extension when it is a known binary or text one; otherwise from
      the first kilobyte of the file (`head`, none when it cannot be read; `decodes` is
      whether it decodes as UTF-8): no NUL byte, and either valid UTF-8 or more than 80%
      printable ASCII. */
  function IsTextFile(name: string, head: Option<seq<byte>>, decodes: bool): (r: bool)
    ensures Lower(Suffix(name)) in BinaryExtensions ==> !r
    ensures Lower(Suffix(name)) !in BinaryExtensions && Lower(Suffix(name)) in TextExtensions ==> r
    ensures Lower(Suffix(name)) !in BinaryExtensions + TextExtensions ==>
              (r <==> head.Some? && 0 !in head.value
                      && (decodes || |head.value| == 0
                          || 5 * PrintableCount(head.value) > 4 * |head.value|))
  {
    var ext := Lower(Suffix(name));
    if ext in BinaryExtensions then false
    else if ext in TextExtensions then true
    else if head.None? then false
    else
      var content := head.value;
      if 0 in content then false
      else if decodes then true
      else if |content| == 0 then true
      else 5 * PrintableCount(content) > 4 * |content|
  }

  /** The tuple `fix_file_ending` returns: whether the file was rewritten, the 1-based
      numbers of lines that lost trailing whitespace, whether it was already correct, and
      the line-ending change noted. */
  datatype Report = Report(modified: bool, whitespaceLines: seq<nat>, wasCorrect: bool,
                           lineEndingChanges: seq<string>)

  /** The lines (1-based, among the first `n`) whose original differs from the fixed line
      and whose `rstrip()` equals it. */
  function WhitespaceLines(original: seq<string>, fixed: seq<string>, n: nat): (r: seq<nat>)
    requires n <= |original| && n <= |fixed|
    ensures |r| <= n
  {
    if n == 0 then []
    else
      var i := n - 1;
      WhitespaceLines(original, fixed, i)
      + (if Rstrip(original[i]) == fixed[i] && original[i] != fixed[i] then [i + 1] else [])
  }

  /** A line is reported exactly when it lost only trailing whitespace. */
  lemma {:induction false} WhitespaceLinesExactly(original: seq<string>, fixed: seq<string>,
                                                  n: nat, line: nat)
    requires n <= |original| && n <= |fixed|
    ensures line in WhitespaceLines(original, fixed, n) <==>
            1 <= line <= n && Rstrip(original[line - 1]) == fixed[line - 1]
            && original[line - 1] != fixed[line - 1]
  {
    if n > 0 {
      var i := n - 1;
      var init := WhitespaceLines(original, fixed, i);
      var last: seq<nat> := if Rstrip(original[i]) == fixed[i] && original[i] != fixed[i] then [i + 1] else [];
      assert WhitespaceLines(original, fixed, n) == init + last;
      assert line in init + last <==> line in init || line in last;
      WhitespaceLinesExactly(original, fixed, i, line);
      assert line in last <==> line == n && Rstrip(original[i]) == fixed[i] && original[i] != fixed[i];
    }
  }

  /** The reported line numbers are increasing and lie between 1 and `n`. */
  lemma {:induction false} WhitespaceLinesIncreasing(original: seq<string>, fixed: seq<string>, n: nat)
    requires n <= |original| && n <= |fixed|
    ensures forall k :: 0 <= k < |WhitespaceLines(original, fixed, n)| ==>
              1 <= WhitespaceLines(original, fixed, n)[k] <= n
    ensures forall j, k :: 0 <= j < k < |WhitespaceLines(original, fixed, n)| ==>
              WhitespaceLines(original, fixed, n)[j] < WhitespaceLines(original, fixed, n)[k]
  {
    if n > 0 {
      var i := n - 1;
      WhitespaceLinesIncreasing(original, fixed, i);
      var init := WhitespaceLines(original, fixed, i);
      if Rstrip(original[i]) == fixed[i] && original[i] != fixed[i] {
        assert WhitespaceLines(original, fixed, n) == init + [n];
        AppendLarger(init, n);
      } else {
        assert WhitespaceLines(original, fixed, n) == init;
      }
    }
  }

  /** Appending a number above every element keeps a list of line numbers increasing. */
  lemma AppendLarger(s: seq<nat>, x: nat)
    requires forall k :: 0 <= k < |s| ==> 1 <= s[k] < x
    requires forall j, k :: 0 <= j < k < |s| ==> s[j] < s[k]
    requires x >= 1
    ensures forall k :: 0 <= k < |s + [x]| ==> 1 <= (s + [x])[k] <= x
    ensures forall j, k :: 0 <= j < k < |s + [x]| ==> (s + [x])[j] < (s + [x])[k]
  {
  }

  /** The line-diff loop of `fix_file_ending`. */
  method DiffLines(original: seq<string>, fixed: seq<string>) returns (lines: seq<nat>)
    ensures |original| <= |fixed| ==> lines == WhitespaceLines(original, fixed, |original|)
    ensures |fixed| <= |original| ==> lines == WhitespaceLines(original, fixed, |fixed|)
  {
    var minLength := if |original| < |fixed| then |original| else |fixed|;
    lines := [];
    var i := 0;
    while i < minLength
      invariant 0 <= i <= minLength && lines == WhitespaceLines(original, fixed, i)
    {
      if Rstrip(original[i]) == fixed[i] && original[i] != fixed[i] {
        lines := lines + [i + 1];
      }
      i := i + 1;
    }
  }

  /** `fix_file_ending` with the intended transform named in Findings: what the hook would
      report and write if blanks before "\r\n" were stripped too. */
  function FixFileEndingCorrected(isText: bool, content: Option<string>): (r: (Report, Option<string>))
    ensures !isText || content.None? ==> r.1.None? && !r.0.modified
    ensures isText && content.Some? ==>
              (r.0.modified <==> FixEnding(content.value) != content.value)
              && r.0.wasCorrect == !r.0.modified && (r.1.Some? <==> r.0.modified)
    ensures r.1.Some? ==>
              NoBlankAtLineEnd(r.1.value) && IsSuffix("\n", r.1.value) && !IsSuffix("\n\n", r.1.value)
  {
    if !isText then (Report(false, [], true, []), None)
    else if content.None? then (Report(false, [], false, []), None)
    else
      var text := content.value;
      var fixed := FixEnding(text);
      if fixed == text then (Report(false, [], true, []), None)
      else
        var original, lines := Split(text, '\n'), Split(fixed, '\n');
        var n := if |original| < |lines| then |original| else |lines|;
        (Report(true, WhitespaceLines(original, lines, n), false,
                if Contains(text, "\r\n") then ["CRLF -> LF"] else []),
         Some(fixed))
  }

  /** `fix_file_ending`: a file that is not text is reported correct and left alone; a file
      that cannot be read is reported neither fixed nor correct; otherwise the text the
      transform as written makes of it is written back exactly when it differs. */
  method FixFileEnding(isText: bool, content: Option<string>)
    returns (report: Report, written: Option<string>)
    ensures !isText ==> report == Report(false, [], true, []) && written.None?
    ensures isText && content.None? ==> report == Report(false, [], false, []) && written.None?
    ensures isText && content.Some? ==>
              var fixed := FixEndingAsWritten(content.value);
              (report.modified <==> fixed != content.value)
              && report.wasCorrect == !report.modified
              && (written.Some? <==> report.modified)
              && (written.Some? ==> written.value == fixed)
              && (!report.modified ==> report.whitespaceLines == [] && report.lineEndingChanges == [])
              && (report.modified ==>
                    report.lineEndingChanges == (if Contains(content.value, "\r\n") then ["CRLF -> LF"] else []))
              && (report.modified ==>
                    var original, lines := Split(content.value, '\n'), Split(fixed, '\n');
                    report.whitespaceLines
                    == WhitespaceLines(original, lines, if |original| < |lines| then |original| else |lines|))
    ensures content.None? || '\r' !in content.value ==>
              (report, written) == FixFileEndingCorrected(isText, content)
  {
    if !isText {
      return Report(false, [], true, []), None;
    }
    if content.None? {
      return Report(false, [], false, []), None;
    }
    var text := content.value;
    var hadCrlf := Contains(text, "\r\n");
    var fixed := FixEndingAsWritten(text);
    if '\r' !in text {
      AsWrittenAgreesWithoutCr(text);
    }
    var modified := text != fixed;
    var whitespaceLines: seq<nat> := [];
    var lineEndingChanges: seq<string> := [];
    written := None;
    if modified {
      var originalLines := Split(text, '\n');
      var fixedLines := Split(fixed, '\n');
      whitespaceLines := DiffLines(originalLines, fixedLines);
      if hadCrlf {
        lineEndingChanges := ["CRLF -> LF"];
      }
      written := Some(fixed);
    }
    report := Report(modified, whitespaceLines, !modified, lineEndingChanges);
  }
}
