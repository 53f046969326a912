/** What the three text normalisers share: `pathlib` path parts and suffixes, the file
    extensions they treat as text, the directories they never enter, and the order in which
    `os.walk` visits the files of a directory tree when those directories are pruned. */
module FileTree {
  import opened Wrappers
  import opened Text

  /** A path as `Path.parts`. */
  type Path = seq<string>

  /** `Path.suffix` of a file name: from its last '.', unless that dot is its first or
      last character. */
  function Suffix(name: string): (r: string)
    ensures r == "" || (IsSuffix(r, name) && |r| >= 2 && r[0] == '.' && |r| < |name|)
    ensures r != "" ==> '.' !in r[1..]
  {
    if '.' !in name then ""
    else
      var i := LastIndexOf(name, '.');
      if 0 < i < |name| - 1 then name[i..] else ""
  }

  /** The position of the last `c` in `s`. */
  function LastIndexOf(s: string, c: char): (i: nat)
    requires c in s
    ensures i < |s| && s[i] == c && c !in s[i + 1..]
  {
    if s[|s| - 1] == c then |s| - 1
    else
      assert c in s[..|s| - 1];
      LastIndexOf(s[..|s| - 1], c)
  }

  /** A name whose only dot is its first character has no suffix. */
  lemma DotFileHasNoSuffix(name: string)
    requires |name| >= 2 && name[0] == '.' && '.' !in name[1..]
    ensures Suffix(name) == ""
  {
  }

  /** `Path.name`. */
  function Name(p: Path): string {
    if |p| == 0 then "" else p[|p| - 1]
  }

  /** The extensions both `fix_file_endings` scripts process. */
  const TextExtensions: set<string> :=
    {".py", ".go", ".js", ".jsx", ".ts", ".tsx", ".html", ".css", ".scss", ".md", ".txt", ".yml",
     ".yaml", ".json", ".toml", ".xml", ".sh", ".bat", ".ps1", ".nsi", ".sql", ".cfg", ".conf",
     ".ini"}

  /** The directory names the normalisers never enter. */
  const ExcludeDirs: set<string> :=
    {".git", "node_modules", "venv", "env", "__pycache__", "dist", "build", "bin", "obj",
     "target", "Debug", "Release"}

  predicate InExcludedDir(p: Path) {
    exists k :: 0 <= k < |p| && p[k] in ExcludeDirs
  }

  /** A directory tree: a file (its content, or none when it cannot be read) or a directory
      with its entries in listing order. */
  datatype Entry = File(name: string, content: Option<string>) | Dir(name: string, entries: seq<Entry>)

  /** The files `os.walk` visits under the directory `root` with entries `entries`, pruning
      excluded sub-directories: first the files of the directory itself, then those under
      each remaining sub-directory in turn. */
  function Walk(root: Path, entries: seq<Entry>): seq<(Path, Option<string>)>
    decreases entries, 1
  {
    FilesOf(root, entries) + SubWalks(root, entries)
  }

  function FilesOf(root: Path, entries: seq<Entry>): seq<(Path, Option<string>)> {
    if |entries| == 0 then []
    else
      (if entries[0].File? then [(root + [entries[0].name], entries[0].content)] else [])
      + FilesOf(root, entries[1..])
  }

  function SubWalks(root: Path, entries: seq<Entry>): seq<(Path, Option<string>)>
    decreases entries, 0
  {
    if |entries| == 0 then []
    else
      (if entries[0].Dir? && entries[0].name !in ExcludeDirs
       then Walk(root + [entries[0].name], entries[0].entries) else [])
      + SubWalks(root, entries[1..])
  }

  /** A visited path lies under `root` and below it crosses no excluded directory. */
  predicate Below(root: Path, p: Path) {
    |root| < |p| && p[..|root|] == root
    && forall k :: |root| <= k < |p| - 1 ==> p[k] !in ExcludeDirs
  }

  /** `os.walk` with the pruning never visits a file inside an excluded directory below the
      root. */
  lemma {:induction false} WalkStaysOutOfExcluded(root: Path, entries: seq<Entry>)
    ensures forall i :: 0 <= i < |Walk(root, entries)| ==> Below(root, Walk(root, entries)[i].0)
    decreases entries, 1
  {
    FilesBelow(root, entries);
    SubWalksBelow(root, entries);
  }

  lemma {:induction false} FilesBelow(root: Path, entries: seq<Entry>)
    ensures forall i :: 0 <= i < |FilesOf(root, entries)| ==> Below(root, FilesOf(root, entries)[i].0)
  {
    if |entries| > 0 {
      FilesBelow(root, entries[1..]);
      var p := root + [entries[0].name];
      assert p[..|root|] == root;
    }
  }

  lemma {:induction false} SubWalksBelow(root: Path, entries: seq<Entry>)
    ensures forall i :: 0 <= i < |SubWalks(root, entries)| ==> Below(root, SubWalks(root, entries)[i].0)
    decreases entries, 0
  {
    if |entries| > 0 {
      SubWalksBelow(root, entries[1..]);
      var head := if entries[0].Dir? && entries[0].name !in ExcludeDirs
                  then Walk(root + [entries[0].name], entries[0].entries) else [];
      if entries[0].Dir? && entries[0].name !in ExcludeDirs {
        var sub := root + [entries[0].name];
        WalkStaysOutOfExcluded(sub, entries[0].entries);
        forall i | 0 <= i < |head|
          ensures Below(root, head[i].0)
        {
          var p := head[i].0;
          assert Below(sub, p);
          assert p[..|root|] == sub[..|root|] == root;
          assert p[|root|] == entries[0].name;
        }
      }
      var rest := SubWalks(root, entries[1..]);
      assert SubWalks(root, entries) == head + rest;
      forall i | 0 <= i < |head + rest|
        ensures Below(root, (head + rest)[i].0)
      {
        if i >= |head| {
          assert (head + rest)[i] == rest[i - |head|];
        }
      }
    }
  }
}
