/** `tools/tws_connectivity_fix.py`: parsing the output of `netsh advfirewall show
    allprofiles` and `netsh advfirewall firewall show rule`, and choosing the ports that need
    a firewall rule and the port to write a connection test for. Running `netsh`, probing
    sockets and the platform test are parameters. */
module TwsConnectivityFix {
  import opened Wrappers
  import opened Text
  import opened Seqs

  // ----- Firewall profiles -----

  predicate IsProfileHeader(line: string) {
    IsPrefix("Domain Profile", line) || IsPrefix("Private Profile", line) || IsPrefix("Public Profile", line)
  }

  /** What one stripped line of `netsh advfirewall show allprofiles` says: the profile
      a header names (the lower-cased text before " Profile"), and the state a line holding
      "State" and at least two words gives (its last word, upper-cased). */
  datatype ProfileLine = ProfileLine(header: Option<string>, state: Option<string>)

  function ReadProfileLine(line: string): ProfileLine {
    var parts := Words(line);
    ProfileLine(
      if IsProfileHeader(line) then Some(Lower(BeforeFirst(line, " Profile"))) else None,
      if Contains(line, "State") && |parts| >= 2 then Some(Upper(parts[|parts| - 1])) else None)
  }

  function ProfileLines(lines: seq<string>): (r: seq<ProfileLine>)
    ensures |r| == |lines|
  {
    if |lines| == 0 then []
    else ProfileLines(lines[..|lines| - 1]) + [ReadProfileLine(Strip(lines[|lines| - 1]))]
  }

  /** The profiles seen so far (each with its state, if a state line followed) and the
      profile the next state line belongs to. */
  datatype ProfileScan = ProfileScan(profiles: map<string, Option<string>>, current: Option<string>)

  /** One line of the profile loop: a header starts a fresh entry and makes it current; a
      state sets the current entry's state. */
  function ScanProfileLine(st: ProfileScan, pl: ProfileLine): ProfileScan {
    var st1 := if pl.header.Some? then ProfileScan(st.profiles[pl.header.value := None], pl.header) else st;
    if st1.current.Some? && st1.current.value != "" && pl.state.Some?
    then ProfileScan(st1.profiles[st1.current.value := pl.state], st1.current)
    else st1
  }

  function ScanProfiles(pls: seq<ProfileLine>): ProfileScan {
    if |pls| == 0 then ProfileScan(map[], None)
    else ScanProfileLine(ScanProfiles(pls[..|pls| - 1]), pls[|pls| - 1])
  }

  /** The part of `s` before `sub`, when `s` starts with `w + sub` and `w` cannot hold the
      start of `sub`. */
  lemma {:induction false} BeforeFirstAt(s: string, sub: string, w: string)
    requires |sub| > 0 && IsPrefix(w + sub, s) && sub[0] !in w
    ensures BeforeFirst(s, sub) == w
    decreases |w|
  {
    if |w| > 0 {
      assert s[0] == w[0] != sub[0];
      assert !IsPrefix(sub, s);
      assert IsPrefix(w[1..] + sub, s[1..]) by {
        assert (w + sub)[1..] == w[1..] + sub;
      }
      BeforeFirstAt(s[1..], sub, w[1..]);
    } else {
      assert IsPrefix(sub, s);
    }
  }

  const ProfileNames: set<string> := {"domain", "private", "public"}

  /** A header line names one of the three profiles. */
  lemma HeaderName(line: string)
    ensures ReadProfileLine(line).header.Some? ==>
              ReadProfileLine(line).header.value in ProfileNames && ReadProfileLine(line).header.value != ""
  {
    if IsPrefix("Domain Profile", line) {
      HeaderWord(line, "Domain", "domain");
    } else if IsPrefix("Private Profile", line) {
      HeaderWord(line, "Private", "private");
    } else if IsPrefix("Public Profile", line) {
      HeaderWord(line, "Public", "public");
    }
  }

  lemma HeaderWord(line: string, w: string, name: string)
    requires w in {"Domain", "Private", "Public"} && IsPrefix(w + " Profile", line)
    requires name == if w == "Domain" then "domain" else if w == "Private" then "private" else "public"
    ensures Lower(BeforeFirst(line, " Profile")) == name
  {
    BeforeFirstAt(line, " Profile", w);
    if w == "Domain" {
      assert Lower(w) == name;
    } else if w == "Private" {
      assert Lower(w) == name;
    } else {
      assert Lower(w) == name;
    }
  }

  /** Only the domain, private and public profiles are ever recorded. */
  lemma {:induction false} ProfileKeys(lines: seq<string>)
    ensures KnownKeys(ScanProfiles(ProfileLines(lines)))
  {
    if |lines| > 0 {
      var n := |lines| - 1;
      ProfileKeys(lines[..n]);
      HeaderName(Strip(lines[n]));
      KeysStep(ScanProfiles(ProfileLines(lines[..n])), ReadProfileLine(Strip(lines[n])));
      ScanProfilesStep(lines, n);
      assert lines[..n + 1] == lines;
    }
  }

  predicate KnownKeys(st: ProfileScan) {
    (forall k :: k in st.profiles ==> k in ProfileNames)
    && (st.current.Some? ==> st.current.value in st.profiles)
  }

  lemma KeysStep(st: ProfileScan, pl: ProfileLine)
    requires KnownKeys(st)
    requires pl.header.Some? ==> pl.header.value in ProfileNames
    ensures KnownKeys(ScanProfileLine(st, pl))
  {
  }

  /** A (stripped) header line followed by a (stripped) state line records that line's last
      word, upper-cased, as the profile's state, whatever lines came before. */
  lemma HeaderThenState(pls: seq<ProfileLine>, header: string, state: string)
    requires IsProfileHeader(header)
    requires !IsProfileHeader(state) && Contains(state, "State") && |Words(state)| >= 2
    ensures var name := Lower(BeforeFirst(header, " Profile"));
            var w := Words(state);
            var st := ScanProfiles(pls + [ReadProfileLine(header), ReadProfileLine(state)]);
            name in st.profiles && st.profiles[name] == Some(Upper(w[|w| - 1]))
  {
    var h := ReadProfileLine(header);
    var t := ReadProfileLine(state);
    HeaderLine(header);
    HeaderName(header);
    StateLine(state);
    ScanHeaderThenState(pls, h, t);
  }

  /** Each line is read on its own: one more line adds exactly its reading. */
  lemma ProfileLinesSnoc(lines: seq<string>, line: string)
    ensures ProfileLines(lines + [line]) == ProfileLines(lines) + [ReadProfileLine(Strip(line))]
  {
    assert (lines + [line])[..|lines|] == lines;
  }

  lemma ScanProfilesStep(lines: seq<string>, i: nat)
    requires i < |lines|
    ensures ScanProfiles(ProfileLines(lines[..i + 1]))
            == ScanProfileLine(ScanProfiles(ProfileLines(lines[..i])), ReadProfileLine(Strip(lines[i])))
  {
    assert lines[..i + 1] == lines[..i] + [lines[i]];
    ProfileLinesSnoc(lines[..i], lines[i]);
    var pls := ProfileLines(lines[..i + 1]);
    assert pls[..|pls| - 1] == ProfileLines(lines[..i]);
  }

  lemma HeaderLine(line: string)
    requires IsProfileHeader(line)
    ensures ReadProfileLine(line).header == Some(Lower(BeforeFirst(line, " Profile")))
  {
  }

  lemma StateLine(line: string)
    requires !IsProfileHeader(line) && Contains(line, "State") && |Words(line)| >= 2
    ensures ReadProfileLine(line) == ProfileLine(None, Some(Upper(Words(line)[|Words(line)| - 1])))
  {
  }

  lemma ScanHeaderThenState(pls: seq<ProfileLine>, h: ProfileLine, t: ProfileLine)
    requires h.header.Some? && h.header.value != "" && t.header.None? && t.state.Some?
    ensures var st := ScanProfiles(pls + [h, t]);
            h.header.value in st.profiles && st.profiles[h.header.value] == t.state
  {
    var q := pls + [h, t];
    assert q[..|q| - 1] == pls + [h];
    assert (pls + [h])[..|pls|] == pls;
  }

  /** `check_windows_firewall_status`: whether any profile is on, and the profiles; an
      error when not on Windows or when `netsh` fails. */
  method FirewallStatus(windows: bool, netsh: Result<string>)
    returns (r: Result<(bool, map<string, Option<string>>)>)
    ensures !windows ==> r == Err("Not running on Windows")
    ensures windows && netsh.Err? ==> r == Err("Error checking Windows Firewall: " + netsh.msg)
    ensures windows && netsh.Ok? ==>
              r.Ok? && r.value.1 == ScanProfiles(ProfileLines(SplitLines(netsh.value))).profiles
              && (r.value.0 <==> exists k :: k in r.value.1 && r.value.1[k] == Some("ON"))
  {
    if !windows {
      return Err("Not running on Windows");
    }
    if netsh.Err? {
      return Err("Error checking Windows Firewall: " + netsh.msg);
    }
    var lines := SplitLines(netsh.value);
    var profiles: map<string, Option<string>> := map[];
    var current: Option<string> := None;
    for i := 0 to |lines|
      invariant ProfileScan(profiles, current) == ScanProfiles(ProfileLines(lines[..i]))
    {
      ScanProfilesStep(lines, i);
      var pl := ReadProfileLine(Strip(lines[i]));
      if pl.header.Some? {
        current := pl.header;
        profiles := profiles[current.value := None];
      }
      if current.Some? && current.value != "" && pl.state.Some? {
        profiles := profiles[current.value := pl.state];
      }
    }
    assert lines[..|lines|] == lines;
    var anyEnabled := Some("ON") in profiles.Values;
    return Ok((anyEnabled, profiles));
  }

  // ----- Firewall rules -----

  /** A rule as the parser records it: field name to value. */
  type Rule = map<string, string>

  function Get(r: Rule, key: string): string {
    if key in r then r[key] else ""
  }

  /** `line.split(":", 1)[1].strip()`. */
  function AfterColon(line: string): string
    requires ':' in line
  {
    Strip(line[IndexOf(line, ':') + 1..])
  }

  /** A field label: it ends in its only colon. */
  predicate IsLabel(tag: string) {
    |tag| > 0 && tag[|tag| - 1] == ':' && ':' !in tag[..|tag| - 1]
  }

  /** A line that starts with a label splits at the label's colon. */
  lemma LabelColon(tag: string, line: string)
    requires IsLabel(tag) && IsPrefix(tag, line)
    ensures ':' in line && AfterColon(line) == Strip(line[|tag|..])
  {
    assert line[|tag| - 1] == ':';
    assert line[..|tag| - 1] == tag[..|tag| - 1];
    IndexOfAt(line, ':', |tag| - 1);
  }

  /** The labels the rule loops look for, in the order they test them, each with the key
      its value is recorded under. */
  const RuleLabels: seq<(string, string)> :=
    [("Rule Name:", "name"), ("Enabled:", "enabled"), ("Direction:", "direction"),
     ("Profiles:", "profiles"), ("LocalPort:", "local_port")]

  lemma RuleLabelsAreLabels()
    ensures forall k :: 0 <= k < |RuleLabels| ==> IsLabel(RuleLabels[k].0)
  {
    assert IsLabel("Rule Name:") && IsLabel("Enabled:") && IsLabel("Direction:");
    assert IsLabel("Profiles:") && IsLabel("LocalPort:");
  }

  /** The field one stripped line of `netsh advfirewall firewall show rule` gives: the key
      of the first label it starts with and the text after the colon, stripped. */
  datatype Field = Field(key: string, value: string) | NoField

  function ReadFieldWith(line: string, labels: seq<(string, string)>): Field
    requires forall k :: 0 <= k < |labels| ==> IsLabel(labels[k].0)
  {
    if |labels| == 0 then NoField
    else if IsPrefix(labels[0].0, line) then
      LabelColon(labels[0].0, line);
      Field(labels[0].1, AfterColon(line))
    else ReadFieldWith(line, labels[1..])
  }

  function ReadField(line: string): Field {
    RuleLabelsAreLabels();
    ReadFieldWith(line, RuleLabels)
  }

  function Fields(lines: seq<string>): (r: seq<Field>)
    ensures |r| == |lines| && forall i :: 0 <= i < |lines| ==> r[i] == ReadField(Strip(lines[i]))
  {
    seq(|lines|, i requires 0 <= i < |lines| => ReadField(Strip(lines[i])))
  }

  /** The rules closed so far (each non-empty record, when a "Rule Name:" line starts the
      next one) and the record being filled. */
  datatype RuleScan = RuleScan(closed: seq<Rule>, current: Rule)

  /** One line of a rule loop. A name starts a new record; the first loop records every
      other field, the second (`full` false) only the enabled state and the local port. */
  function ScanRuleLine(st: RuleScan, f: Field, full: bool): RuleScan {
    match f
    case NoField => st
    case Field(key, v) =>
      if key == "name" then RuleScan(st.closed + (if st.current != map[] then [st.current] else []), map["name" := v])
      else if full || key == "enabled" || key == "local_port" then RuleScan(st.closed, st.current[key := v])
      else st
  }

  function ScanRules(fs: seq<Field>, full: bool): RuleScan {
    if |fs| == 0 then RuleScan([], map[])
    else ScanRuleLine(ScanRules(fs[..|fs| - 1], full), fs[|fs| - 1], full)
  }

  lemma ScanRulesSnoc(fs: seq<Field>, i: nat, full: bool)
    requires i < |fs|
    ensures ScanRules(fs[..i + 1], full) == ScanRuleLine(ScanRules(fs[..i], full), fs[i], full)
  {
    assert fs[..i + 1][..i] == fs[..i];
  }

  /** Every record a rule loop considers: the closed ones and the last, when non-empty. */
  function Records(fs: seq<Field>, full: bool): (r: seq<Rule>)
    ensures forall k :: 0 <= k < |r| ==> r[k] != map[]
  {
    var st := ScanRules(fs, full);
    RecordsNonEmpty(fs, full);
    st.closed + (if st.current != map[] then [st.current] else [])
  }

  lemma {:induction false} RecordsNonEmpty(fs: seq<Field>, full: bool)
    ensures forall k :: 0 <= k < |ScanRules(fs, full).closed| ==> ScanRules(fs, full).closed[k] != map[]
  {
    if |fs| > 0 {
      RecordsNonEmpty(fs[..|fs| - 1], full);
    }
  }

  predicate NameMatched(r: Rule) {
    var name := Get(r, "name");
    Contains(name, "TWS") || Contains(name, "IB") || Contains(name, "Interactive Brokers")
  }

  const TwsPortNames: set<string> := {"7496", "7497", "4001", "4002"}

  predicate PortMatched(r: Rule) {
    "local_port" in r && r["local_port"] in TwsPortNames
  }

  /** `base` followed by each record of `extra` not already listed. */
  function AppendNew(base: seq<Rule>, extra: seq<Rule>): seq<Rule> {
    if |extra| == 0 then base
    else
      var acc := AppendNew(base, extra[..|extra| - 1]);
      if extra[|extra| - 1] in acc then acc else acc + [extra[|extra| - 1]]
  }

  predicate Distinct(s: seq<Rule>) {
    forall i, j :: 0 <= i < j < |s| ==> s[i] != s[j]
  }

  /** Appending only new records keeps `base` as a prefix, lists exactly the records of
      both, and lists none twice when `base` does not. */
  lemma {:induction false} AppendNewExactly(base: seq<Rule>, extra: seq<Rule>)
    ensures var r := AppendNew(base, extra);
            IsPrefixOf(base, r)
            && (forall x :: x in r <==> x in base || x in extra)
            && (Distinct(base) ==> Distinct(r))
  {
    if |extra| > 0 {
      AppendNewExactly(base, extra[..|extra| - 1]);
      var acc := AppendNew(base, extra[..|extra| - 1]);
      assert extra == extra[..|extra| - 1] + [extra[|extra| - 1]];
      var x := extra[|extra| - 1];
      if x !in acc {
        var r := acc + [x];
        assert r[..|base|] == acc[..|base|];
        if Distinct(base) {
          forall i, j | 0 <= i < j < |r|
            ensures r[i] != r[j]
          {
            if j == |acc| {
              assert r[i] == acc[i];
            } else {
              assert r[i] == acc[i] && r[j] == acc[j];
            }
          }
        }
      }
    }
  }

  predicate IsPrefixOf(a: seq<Rule>, b: seq<Rule>) {
    |a| <= |b| && b[..|a|] == a
  }

  /** The rule list as written: the second loop records fewer fields than the first, so a
      rule matched both by name and by port is never found among the name-matched records
      and is listed a second time. */
  function RulesAsWritten(fs: seq<Field>): seq<Rule> {
    AppendNew(Filter(Records(fs, true), NameMatched), Filter(Records(fs, false), PortMatched))
  }

  /** The rule list as intended: both selections are made over the same records. */
  function Rules(fs: seq<Field>): seq<Rule> {
    var records := Records(fs, true);
    AppendNew(Filter(records, NameMatched), Filter(records, PortMatched))
  }

  /** The intended list holds exactly the records matched by name or by port, name-matched
      ones first, and none twice when `netsh` lists no rule twice. */
  lemma RulesExactly(fs: seq<Field>)
    ensures var records := Records(fs, true);
            (forall r :: r in Rules(fs) <==> r in records && (NameMatched(r) || PortMatched(r)))
            && IsPrefixOf(Filter(records, NameMatched), Rules(fs))
            && (Distinct(records) ==> Distinct(Rules(fs)))
  {
    var records := Records(fs, true);
    AppendNewExactly(Filter(records, NameMatched), Filter(records, PortMatched));
    FilterKeepsPassing(records, NameMatched);
    FilterKeepsPassing(records, PortMatched);
    FilterExactly(records, NameMatched);
    FilterExactly(records, PortMatched);
    if Distinct(records) {
      FilterDistinct(records, NameMatched);
    }
  }

  lemma {:induction false} FilterExactly(s: seq<Rule>, p: Rule -> bool)
    ensures forall x :: x in Filter(s, p) <==> x in s && p(x)
  {
    if |s| > 0 {
      FilterExactly(s[1..], p);
      assert s == [s[0]] + s[1..];
    }
  }

  lemma {:induction false} FilterDistinct(s: seq<Rule>, p: Rule -> bool)
    requires Distinct(s)
    ensures Distinct(Filter(s, p))
  {
    if |s| > 0 {
      FilterDistinct(s[1..], p);
      FilterExactly(s[1..], p);
      var t := Filter(s[1..], p);
      if p(s[0]) {
        assert s[0] !in s[1..];
        var r := [s[0]] + t;
        forall i, j | 0 <= i < j < |r|
          ensures r[i] != r[j]
        {
          assert r[j] == t[j - 1];
          if i > 0 {
            assert r[i] == t[i - 1];
          }
        }
      }
    }
  }

  lemma StripPlain(s: string)
    requires |s| > 0 && !IsSpace(s[0]) && !IsSpace(s[|s| - 1])
    ensures Strip(s) == s
  {
  }

  /** The value after a label's colon: one space, then text without outer blanks. */
  lemma StripOneSpace(s: string)
    requires |s| > 1 && s[0] == ' ' && !IsSpace(s[1]) && !IsSpace(s[|s| - 1])
    ensures Strip(s) == s[1..]
  {
    assert Lstrip(s) == Lstrip(s[1..]) == s[1..];
  }

  /** A line that starts with the `k`-th label, and with none before it, gives that
      label's field. */
  lemma {:induction false} ReadFieldWithAt(line: string, labels: seq<(string, string)>, k: nat)
    requires forall j :: 0 <= j < |labels| ==> IsLabel(labels[j].0)
    requires k < |labels| && IsPrefix(labels[k].0, line)
    requires forall j :: 0 <= j < k ==> !IsPrefix(labels[j].0, line)
    ensures ReadFieldWith(line, labels) == Field(labels[k].1, Strip(line[|labels[k].0|..]))
    decreases k
  {
    if k == 0 {
      LabelColon(labels[0].0, line);
    } else {
      assert !IsPrefix(labels[0].0, line);
      ReadFieldWithAt(line, labels[1..], k - 1);
    }
  }

  lemma NameLineParts()
    ensures Strip("Rule Name: TWS API") == "Rule Name: TWS API" && IsPrefix("Rule Name:", "Rule Name: TWS API")
    ensures Strip("Rule Name: TWS API"[10..]) == "TWS API"
  {
    StripPlain("Rule Name: TWS API");
    assert "Rule Name: TWS API"[..10] == "Rule Name:";
    assert "Rule Name: TWS API"[0] == 'R';
    assert "Rule Name: TWS API"[10..] == " TWS API";
    StripOneSpace(" TWS API");
    assert " TWS API"[1..] == "TWS API";
  }

  lemma NameLine(l: string)
    requires l == "Rule Name: TWS API"
    ensures ReadField(Strip(l)) == Field("name", "TWS API")
  {
    NameLineParts();
    RuleLabelsAreLabels();
    ReadFieldWithAt(l, RuleLabels, 0);
  }

  lemma EnabledLineParts()
    ensures Strip("Enabled: Yes") == "Enabled: Yes" && IsPrefix("Enabled:", "Enabled: Yes")
    ensures !IsPrefix("Rule Name:", "Enabled: Yes")
    ensures Strip("Enabled: Yes"[8..]) == "Yes"
  {
    StripPlain("Enabled: Yes");
    assert "Enabled: Yes"[..8] == "Enabled:";
    assert "Enabled: Yes"[0] == 'E';
    assert "Enabled: Yes"[8..] == " Yes";
    StripOneSpace(" Yes");
    assert " Yes"[1..] == "Yes";
  }

  lemma EnabledLine(l: string)
    requires l == "Enabled: Yes"
    ensures ReadField(Strip(l)) == Field("enabled", "Yes")
  {
    EnabledLineParts();
    RuleLabelsAreLabels();
    ReadFieldWithAt(l, RuleLabels, 1);
  }

  lemma DirectionLineParts()
    ensures Strip("Direction: In") == "Direction: In" && IsPrefix("Direction:", "Direction: In")
    ensures !IsPrefix("Rule Name:", "Direction: In")
    ensures !IsPrefix("Enabled:", "Direction: In")
    ensures Strip("Direction: In"[10..]) == "In"
  {
    StripPlain("Direction: In");
    assert "Direction: In"[..10] == "Direction:";
    assert "Direction: In"[0] == 'D';
    assert "Direction: In"[10..] == " In";
    StripOneSpace(" In");
    assert " In"[1..] == "In";
  }

  lemma DirectionLine(l: string)
    requires l == "Direction: In"
    ensures ReadField(Strip(l)) == Field("direction", "In")
  {
    DirectionLineParts();
    RuleLabelsAreLabels();
    ReadFieldWithAt(l, RuleLabels, 2);
  }

  lemma PortLineParts()
    ensures Strip("LocalPort: 7497") == "LocalPort: 7497" && IsPrefix("LocalPort:", "LocalPort: 7497")
    ensures !IsPrefix("Rule Name:", "LocalPort: 7497")
    ensures !IsPrefix("Enabled:", "LocalPort: 7497")
    ensures !IsPrefix("Direction:", "LocalPort: 7497")
    ensures !IsPrefix("Profiles:", "LocalPort: 7497")
    ensures Strip("LocalPort: 7497"[10..]) == "7497"
  {
    StripPlain("LocalPort: 7497");
    assert "LocalPort: 7497"[..10] == "LocalPort:";
    assert "LocalPort: 7497"[0] == 'L';
    assert "LocalPort: 7497"[10..] == " 7497";
    StripOneSpace(" 7497");
    assert " 7497"[1..] == "7497";
  }

  lemma PortLine(l: string)
    requires l == "LocalPort: 7497"
    ensures ReadField(Strip(l)) == Field("local_port", "7497")
  {
    PortLineParts();
    RuleLabelsAreLabels();
    ReadFieldWithAt(l, RuleLabels, 4);
  }

  /** A rule named "TWS API" on port 7497, as `netsh` prints it: the lines "Rule Name: TWS
      API", "Enabled: Yes", "Direction: In" and "LocalPort: 7497", which `NameLine`,
      `EnabledLine`, `DirectionLine` and `PortLine` read as these fields. */
  const TwsRule: seq<Field> :=
    [Field("name", "TWS API"), Field("enabled", "Yes"), Field("direction", "In"), Field("local_port", "7497")]

  /** The rule `TwsRule` as each loop records it: with its direction in the first, without
      it in the second. */
  const FullTwsRule: Rule := map["name" := "TWS API", "enabled" := "Yes", "direction" := "In", "local_port" := "7497"]
  const PartTwsRule: Rule := map["name" := "TWS API", "enabled" := "Yes", "local_port" := "7497"]

  lemma TwsRuleRecords(full: bool)
    ensures Records(TwsRule, full) == if full then [FullTwsRule] else [PartTwsRule]
  {
    var fs := TwsRule;
    assert fs[..1][..0] == [];
    assert fs[..2][..1] == fs[..1] && fs[..3][..2] == fs[..2] && fs[..4][..3] == fs[..3] && fs[..4] == fs;
    var s1 := RuleScan([], map["name" := "TWS API"]);
    assert ScanRules(fs[..1], full) == s1;
    var s2 := RuleScan([], map["name" := "TWS API", "enabled" := "Yes"]);
    assert ScanRules(fs[..2], full) == s2;
    var s3 := if full then RuleScan([], map["name" := "TWS API", "enabled" := "Yes", "direction" := "In"]) else s2;
    assert ScanRules(fs[..3], full) == s3;
    var st := ScanRules(fs, full);
    assert st.closed == [] && st.current == if full then FullTwsRule else PartTwsRule;
    assert "name" in st.current;
  }

  /** As written, the one rule of `TwsRule` is listed twice: once as the first loop records
      it, once as the second does. */
  lemma TwsRuleListedTwice()
    ensures |Records(TwsRule, true)| == 1
    ensures RulesAsWritten(TwsRule) == [FullTwsRule, PartTwsRule]
  {
    TwsRuleRecords(true);
    TwsRuleRecords(false);
    TwsRuleSelected();
    assert "direction" !in PartTwsRule && "direction" in FullTwsRule;
    AppendNewDifferent(FullTwsRule, PartTwsRule);
  }

  /** The full record is matched by name, and both records by port. */
  lemma TwsRuleSelected()
    ensures Filter([FullTwsRule], NameMatched) == [FullTwsRule]
    ensures Filter([FullTwsRule], PortMatched) == [FullTwsRule]
    ensures Filter([PartTwsRule], PortMatched) == [PartTwsRule]
  {
    assert NameMatched(FullTwsRule) by {
      assert IsPrefix("TWS", Get(FullTwsRule, "name"));
    }
    assert PortMatched(FullTwsRule);
    assert PortMatched(PartTwsRule);
  }

  lemma AppendNewDifferent(a: Rule, b: Rule)
    requires a != b
    ensures AppendNew([a], [b]) == [a, b]
  {
    assert [b][..0] == [];
  }

  /** As intended, it is listed once. */
  lemma TwsRuleListedOnce()
    ensures Rules(TwsRule) == [FullTwsRule]
  {
    TwsRuleRecords(true);
    TwsRuleSelected();
    assert [FullTwsRule][..0] == [];
  }

  /** `check_existing_firewall_rules`, with both selections made over full records: nothing
      off Windows or when `netsh` fails, otherwise the name-matched rules, then the
      port-matched rules not already listed. */
  method ExistingFirewallRules(windows: bool, netsh: Result<string>) returns (rules: seq<Rule>)
    ensures !windows || netsh.Err? ==> rules == []
    ensures windows && netsh.Ok? ==> rules == Rules(Fields(SplitLines(netsh.value)))
  {
    if !windows || netsh.Err? {
      return [];
    }
    var lines := SplitLines(netsh.value);
    var records := ScanRecords(lines);
    var twsRules := SelectRules(records, NameMatched);
    var portRules := SelectRules(records, PortMatched);
    rules := twsRules;
    for k := 0 to |portRules|
      invariant rules == AppendNew(twsRules, portRules[..k])
    {
      assert portRules[..k + 1][..k] == portRules[..k];
      if portRules[k] !in rules {
        rules := rules + [portRules[k]];
      }
    }
    assert portRules[..|portRules|] == portRules;
  }

  /** The rule loop: a record closes at each "Rule Name:" line and at the end. */
  method ScanRecords(lines: seq<string>) returns (records: seq<Rule>)
    ensures records == Records(Fields(lines), true)
  {
    ghost var fs := Fields(lines);
    var closed: seq<Rule> := [];
    var current: Rule := map[];
    for i := 0 to |lines|
      invariant RuleScan(closed, current) == ScanRules(fs[..i], true)
    {
      ScanRulesSnoc(fs, i, true);
      match ReadField(Strip(lines[i]))
      case NoField =>
      case Field(key, v) =>
        if key == "name" {
          if current != map[] {
            closed := closed + [current];
          }
          current := map["name" := v];
        } else {
          current := current[key := v];
        }
    }
    assert fs[..|fs|] == fs;
    records := closed + (if current != map[] then [current] else []);
  }

  /** The records that pass `keep`, in order. */
  method SelectRules(records: seq<Rule>, keep: Rule -> bool) returns (kept: seq<Rule>)
    ensures kept == Filter(records, keep)
  {
    kept := [];
    for i := 0 to |records|
      invariant kept == Filter(records[..i], keep)
    {
      FilterSnoc(records[..i], records[i], keep);
      assert records[..i + 1] == records[..i] + [records[i]];
      if keep(records[i]) {
        kept := kept + [records[i]];
      }
    }
    assert records[..|records|] == records;
  }

  /** The name `create_firewall_rule` gives a rule for `port`. */
  function RuleName(port: nat): string {
    "IBKR TWS API Port " + IntToString(port)
  }

  /** A rule the tool creates is recognised by name on the next run. */
  lemma CreatedRuleIsFound(port: nat)
    ensures NameMatched(map["name" := RuleName(port)])
  {
    var name := RuleName(port);
    assert name[5..8] == "TWS";
    ContainsAt(name, "TWS", 5);
  }

  // ----- Port selection -----

  /** The TWS and IB Gateway ports, in the order the tool tries them. */
  const PortsToFix: seq<int> := [7497, 7496, 4001, 4002]

  /** `check_tws_ports`: the ports that accept a connection, in order. */
  method CheckTwsPorts(portOpen: int -> bool) returns (openPorts: seq<int>)
    ensures openPorts == Filter(PortsToFix, portOpen)
  {
    openPorts := [];
    for i := 0 to |PortsToFix|
      invariant openPorts == Filter(PortsToFix[..i], portOpen)
    {
      FilterSnoc(PortsToFix[..i], PortsToFix[i], portOpen);
      assert PortsToFix[..i + 1] == PortsToFix[..i] + [PortsToFix[i]];
      if portOpen(PortsToFix[i]) {
        openPorts := openPorts + [PortsToFix[i]];
      }
    }
    assert PortsToFix[..4] == PortsToFix;
  }

  /** The port selection of `analyze_and_fix`: the ports needing a rule are the TWS ports
      that are not open, in order; the test script targets the first open port, else the
      first port needing a rule, else 7497. */
  method SelectPorts(openPorts: seq<int>) returns (needing: seq<int>, target: int)
    ensures needing == Filter(PortsToFix, p => p !in openPorts)
    ensures forall p :: p in needing <==> p in PortsToFix && p !in openPorts
    ensures |openPorts| > 0 ==> target == openPorts[0]
    ensures |openPorts| == 0 ==> needing == PortsToFix && target == 7497
  {
    needing := PortsNotOpen(PortsToFix, openPorts);
    PortsFilterExactly(openPorts);
    target := 7497;
    if |openPorts| > 0 {
      target := openPorts[0];
    } else if |needing| > 0 {
      target := needing[0];
    }
  }

  /** The loop over `ports_to_fix` that keeps the ports not found open. */
  method PortsNotOpen(ports: seq<int>, openPorts: seq<int>) returns (needing: seq<int>)
    ensures needing == Filter(ports, p => p !in openPorts)
  {
    needing := [];
    for i := 0 to |ports|
      invariant needing == Filter(ports[..i], p => p !in openPorts)
    {
      FilterSnoc(ports[..i], ports[i], p => p !in openPorts);
      assert ports[..i + 1] == ports[..i] + [ports[i]];
      if ports[i] !in openPorts {
        needing := needing + [ports[i]];
      }
    }
    assert ports[..|ports|] == ports;
  }

  lemma PortsFilterExactly(openPorts: seq<int>)
    ensures forall p :: p in Filter(PortsToFix, q => q !in openPorts) <==> p in PortsToFix && p !in openPorts
    ensures |openPorts| == 0 ==> Filter(PortsToFix, q => q !in openPorts) == PortsToFix
  {
    FilterIntExactly(PortsToFix, q => q !in openPorts);
    if |openPorts| == 0 {
      FilterAll(PortsToFix, q => q !in openPorts);
    }
  }

  lemma {:induction false} FilterIntExactly(s: seq<int>, p: int -> bool)
    ensures forall x :: x in Filter(s, p) <==> x in s && p(x)
  {
    if |s| > 0 {
      FilterIntExactly(s[1..], p);
      assert s == [s[0]] + s[1..];
    }
  }

  /** With the open ports the probe reports, the test script targets an open TWS port, or
      7497 when none is open; and every TWS port is either open or needs a rule. */
  lemma TargetIsTwsPort(portOpen: int -> bool, openPorts: seq<int>, needing: seq<int>, target: int)
    requires openPorts == Filter(PortsToFix, portOpen)
    requires needing == Filter(PortsToFix, p => p !in openPorts)
    requires |openPorts| > 0 ==> target == openPorts[0]
    requires |openPorts| == 0 ==> target == 7497
    ensures target in PortsToFix
    ensures |openPorts| > 0 <==> portOpen(target)
    ensures forall p :: p in PortsToFix ==> (p in needing <==> !portOpen(p))
  {
    FilterIntExactly(PortsToFix, portOpen);
    PortsFilterExactly(openPorts);
    if |openPorts| > 0 {
      assert openPorts[0] in openPorts;
    } else {
      assert !portOpen(7497) by {
        assert 7497 in PortsToFix;
      }
    }
  }

  /** The firewall rules `analyze_and_fix` creates: one per port needing a rule, only on
      Windows with the firewall on and `--apply` given. */
  function RulesToCreate(windows: bool, firewallEnabled: Option<bool>, apply: bool, needing: seq<int>): (r: seq<int>)
    ensures r == [] || r == needing
    ensures |r| > 0 ==> windows && firewallEnabled == Some(true) && apply
    ensures windows && firewallEnabled == Some(true) && apply ==> r == needing
  {
    if windows && firewallEnabled == Some(true) && |needing| > 0 && apply then needing else []
  }
}
