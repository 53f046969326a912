/** `tools/verify_api_config.py`: the checks the configuration verifier runs over the `ibkr`
    section of a loaded YAML configuration, and the improvements it suggests. The socket
    probe of the configured port is a parameter: whether connecting to that port succeeds. */
module VerifyApiConfig {
  import opened Wrappers
  import opened Text

  /** A YAML value as `yaml.safe_load` returns it. */
  datatype Value = Null | Bool(b: bool) | Int(i: int) | Str(s: string) | Mapping(entries: map<string, Value>)

  /** Python truthiness. */
  predicate Truthy(v: Value) {
    match v
    case Null => false
    case Bool(b) => b
    case Int(i) => i != 0
    case Str(s) => s != ""
    case Mapping(m) => m != map[]
  }

  /** The value as a number when `<` and `==` compare it with an integer; `bool` is an
      integer subtype in Python. */
  function AsNumber(v: Value): (r: Option<int>)
    ensures r.Some? <==> v.Int? || v.Bool?
  {
    match v
    case Int(i) => Some(i)
    case Bool(b) => Some(if b then 1 else 0)
    case _ => None
  }

  const StandardPorts: set<int> := {7497, 7496, 4001, 4002}

  /** The keys the check requires, in the order it tests them. */
  const RequiredFields: seq<string> := ["host", "port", "client_id"]

  /** The checks of `check_ibkr_config` raise on these sections: a client id or timeout that
      does not compare with an integer, or a non-empty account that is not a string. */
  predicate Raises(ibkr: map<string, Value>) {
    ("client_id" in ibkr && AsNumber(ibkr["client_id"]).None?)
    || ("account" in ibkr && Truthy(ibkr["account"]) && !ibkr["account"].Str?)
    || ("timeout" in ibkr && AsNumber(ibkr["timeout"]).None?)
  }

  /** The connection settings are complete and point at a local TWS: the required keys are
      present, the host is local, and a standard port answers the probe. */
  predicate Reachable(ibkr: map<string, Value>, portOpen: int -> bool) {
    (forall f :: f in RequiredFields ==> f in ibkr)
    && ibkr["host"] in {Str("127.0.0.1"), Str("localhost")}
    && (ibkr["port"].Int? && ibkr["port"].i in StandardPorts ==> portOpen(ibkr["port"].i))
  }

  /** A section with no issue, stated condition by condition. */
  predicate Sound(ibkr: map<string, Value>, portOpen: int -> bool) {
    Reachable(ibkr, portOpen)
    && AsNumber(ibkr["client_id"]).Some? && AsNumber(ibkr["client_id"]).value > 0
    && ("account" in ibkr && Truthy(ibkr["account"]) && ibkr["account"].Str? ==>
          IsPrefix("U", ibkr["account"].s) || IsPrefix("DU", ibkr["account"].s))
    && ("timeout" in ibkr && AsNumber(ibkr["timeout"]).Some? ==>
          10 <= AsNumber(ibkr["timeout"]).value <= 60)
    && "auto_reconnect" in ibkr && Truthy(ibkr["auto_reconnect"])
  }

  /** `check_ibkr_config`: `Ok(true)` when no issue is found, `Ok(false)` when one is, and
      an error when a comparison raises. */
  method CheckIbkrConfig(config: Option<map<string, Value>>, portOpen: int -> bool)
    returns (r: Result<bool>)
    ensures config.None? || "ibkr" !in config.value ==> r == Ok(false)
    ensures config.Some? && "ibkr" in config.value && config.value["ibkr"].Str? ==>
              (r.Err? <==> exists k :: k in AccessedKeys && Contains(config.value["ibkr"].s, k))
              && (r.Ok? ==> r == Ok(false))
    ensures (config.Some? && "ibkr" in config.value && !config.value["ibkr"].Mapping?
             && !config.value["ibkr"].Str?) ==> r.Err?
    ensures config.Some? && "ibkr" in config.value && config.value["ibkr"].Mapping? ==>
              var ibkr := config.value["ibkr"].entries;
              (r.Err? <==> Raises(ibkr)) && (r.Ok? ==> (r.value <==> Sound(ibkr, portOpen)))
  {
    if config.None? || "ibkr" !in config.value {
      return Ok(false);
    }
    var section := config.value["ibkr"];
    if section.Str? {
      r := CheckTextSection(section.s);
      return;
    }
    if !section.Mapping? {
      return Err("TypeError");
    }
    var ibkr := section.entries;
    var issues := ConnectionIssues(ibkr, portOpen);
    if "client_id" in ibkr {
      var clientId := AsNumber(ibkr["client_id"]);
      if clientId.None? {
        return Err("TypeError");
      }
      if clientId.value <= 0 {
        issues := true;
      }
    }
    if "account" in ibkr {
      var account := ibkr["account"];
      if Truthy(account) {
        if !account.Str? {
          return Err("AttributeError");
        }
        if !(IsPrefix("U", account.s) || IsPrefix("DU", account.s)) {
          issues := true;
        }
      }
    }
    if "timeout" in ibkr {
      var timeout := AsNumber(ibkr["timeout"]);
      if timeout.None? {
        return Err("TypeError");
      }
      if timeout.value < 10 || timeout.value > 60 {
        issues := true;
      }
    }
    if !("auto_reconnect" in ibkr && Truthy(ibkr["auto_reconnect"])) {
      issues := true;
    }
    return Ok(!issues);
  }

  /** The keys `check_ibkr_config` reads from the section once `in` finds them, in order. */
  const AccessedKeys: seq<string> :=
    ["host", "port", "client_id", "account", "timeout", "auto_reconnect", "read_only"]

  /** `check_ibkr_config` on a string section: `in` tests for a substring, and indexing the
      string with a key it contains raises; otherwise `auto_reconnect` is missing, an issue. */
  method CheckTextSection(section: string) returns (r: Result<bool>)
    ensures r.Err? <==> exists k :: k in AccessedKeys && Contains(section, k)
    ensures r.Ok? ==> r == Ok(false)
  {
    for i := 0 to |AccessedKeys|
      invariant forall j :: 0 <= j < i ==> !Contains(section, AccessedKeys[j])
    {
      if Contains(section, AccessedKeys[i]) {
        assert AccessedKeys[i] in AccessedKeys;
        return Err("TypeError");
      }
    }
    return Ok(false);
  }

  /** The first checks of `check_ibkr_config`: required keys, host and port. */
  method ConnectionIssues(ibkr: map<string, Value>, portOpen: int -> bool) returns (issues: bool)
    ensures issues <==> !Reachable(ibkr, portOpen)
  {
    issues := false;
    for k := 0 to |RequiredFields|
      invariant issues <==> exists j :: 0 <= j < k && RequiredFields[j] !in ibkr
    {
      if RequiredFields[k] !in ibkr {
        issues := true;
      }
    }
    assert issues <==> !(forall f :: f in RequiredFields ==> f in ibkr);
    if "host" in ibkr && ibkr["host"] != Str("127.0.0.1") && ibkr["host"] != Str("localhost") {
      issues := true;
    }
    if "port" in ibkr {
      var port := ibkr["port"];
      if port.Int? && port.i in StandardPorts && !portOpen(port.i) {
        issues := true;
      }
    }
  }

  /** Missing host, port or client id, a missing or false `auto_reconnect`, a client id that
      is not positive, an unusual account, or a timeout outside [10, 60] each fail the
      check. */
  lemma EachIssueFails(ibkr: map<string, Value>, portOpen: int -> bool)
    requires "host" !in ibkr || "port" !in ibkr || "client_id" !in ibkr
             || !("auto_reconnect" in ibkr && Truthy(ibkr["auto_reconnect"]))
             || ("client_id" in ibkr && ibkr["client_id"].Int? && ibkr["client_id"].i <= 0)
             || ("account" in ibkr && ibkr["account"].Str? && ibkr["account"].s != ""
                 && !IsPrefix("U", ibkr["account"].s) && !IsPrefix("DU", ibkr["account"].s))
             || ("timeout" in ibkr && ibkr["timeout"].Int?
                 && (ibkr["timeout"].i < 10 || ibkr["timeout"].i > 60))
    ensures !Sound(ibkr, portOpen)
  {
    if "host" !in ibkr {
      assert RequiredFields[0] == "host";
    } else if "port" !in ibkr {
      assert RequiredFields[1] == "port";
    } else if "client_id" !in ibkr {
      assert RequiredFields[2] == "client_id";
    }
  }

  /** Which non-standard port is configured does not matter, nor is it probed. */
  lemma NonStandardPortIrrelevant(ibkr: map<string, Value>, portOpen: int -> bool, p: int, q: int)
    requires p !in StandardPorts && q !in StandardPorts
    ensures Sound(ibkr["port" := Int(p)], portOpen) == Sound(ibkr["port" := Int(q)], portOpen)
  {
    var a, b := ibkr["port" := Int(p)], ibkr["port" := Int(q)];
    assert forall f :: f != "port" ==> (f in a <==> f in b);
    assert forall f :: f != "port" && f in a ==> a[f] == b[f];
  }

  /** Whether `read_only` is set, and to what, never matters. */
  lemma ReadOnlyIrrelevant(ibkr: map<string, Value>, portOpen: int -> bool, v: Value)
    ensures Sound(ibkr["read_only" := v], portOpen) == Sound(ibkr - {"read_only"}, portOpen)
    ensures Raises(ibkr["read_only" := v]) == Raises(ibkr - {"read_only"})
  {
    var c, d := ibkr["read_only" := v], ibkr - {"read_only"};
    assert ("host" in c <==> "host" in d) && ("host" in c ==> c["host"] == d["host"]);
    assert ("port" in c <==> "port" in d) && ("port" in c ==> c["port"] == d["port"]);
    assert ("client_id" in c <==> "client_id" in d) && ("client_id" in c ==> c["client_id"] == d["client_id"]);
    assert ("account" in c <==> "account" in d) && ("account" in c ==> c["account"] == d["account"]);
    assert ("timeout" in c <==> "timeout" in d) && ("timeout" in c ==> c["timeout"] == d["timeout"]);
    assert ("auto_reconnect" in c <==> "auto_reconnect" in d)
           && ("auto_reconnect" in c ==> c["auto_reconnect"] == d["auto_reconnect"]);
    assert (forall f :: f in RequiredFields ==> f in c) <==> (forall f :: f in RequiredFields ==> f in d);
  }

  /** A missing timeout is no issue where a timeout in range would not be one. */
  lemma MissingTimeoutOnlyWarns(ibkr: map<string, Value>, portOpen: int -> bool)
    ensures Sound(ibkr["timeout" := Int(30)], portOpen) ==> Sound(ibkr - {"timeout"}, portOpen)
  {
    var e, g := ibkr["timeout" := Int(30)], ibkr - {"timeout"};
    if Sound(e, portOpen) {
      assert "host" in g && "port" in g && "client_id" in g && "auto_reconnect" in g;
      assert g["host"] == e["host"] && g["port"] == e["port"] && g["client_id"] == e["client_id"];
      assert g["auto_reconnect"] == e["auto_reconnect"];
      assert "account" in g ==> g["account"] == e["account"];
      assert forall f :: f in RequiredFields ==> f in g;
    }
  }

  /** The four suggestions, in the order `suggest_improvements` makes them. */
  datatype Tip = ReadOnlyTip | TimeoutTip | ReconnectTip | RateTip

  function Rank(t: Tip): (k: nat)
    ensures k < 4
  {
    match t
    case ReadOnlyTip => 0
    case TimeoutTip => 1
    case ReconnectTip => 2
    case RateTip => 3
  }

  /** The text printed for each suggestion. */
  function TipText(t: Tip): string {
    match t
    case ReadOnlyTip => "During initial setup and testing, consider using read-only mode:\nibkr:\n  read_only: true"
    case TimeoutTip => "For slow or unstable connections, increase the timeout value:\nibkr:\n  timeout: 30"
    case ReconnectTip => "Enable automatic reconnection for better reliability:\nibkr:\n  auto_reconnect: true"
    case RateTip => "Specify API request rate limit to prevent throttling:\nibkr:\n  max_rate: 45  # Maximum API requests per second (IB's limit is 50)"
  }

  /** When each suggestion is made: `read_only` not truthy; `timeout` missing or below 20;
      `auto_reconnect` not truthy; `max_rate` missing. */
  predicate Wanted(ibkr: map<string, Value>, t: Tip) {
    match t
    case ReadOnlyTip => !("read_only" in ibkr && Truthy(ibkr["read_only"]))
    case TimeoutTip => "timeout" !in ibkr || (AsNumber(ibkr["timeout"]).Some? && AsNumber(ibkr["timeout"]).value < 20)
    case ReconnectTip => !("auto_reconnect" in ibkr && Truthy(ibkr["auto_reconnect"]))
    case RateTip => "max_rate" !in ibkr
  }

  const Tips: seq<Tip> := [ReadOnlyTip, TimeoutTip, ReconnectTip, RateTip]

  /** `suggest_improvements`: nothing when there is no configuration or no `ibkr` section;
      otherwise exactly the wanted suggestions, in order; an error when the timeout does
      not compare with an integer. */
  method SuggestImprovements(config: Option<map<string, Value>>) returns (r: Result<Option<seq<Tip>>>)
    ensures config.None? || "ibkr" !in config.value ==> r == Ok(None)
    ensures config.Some? && "ibkr" in config.value && config.value["ibkr"].Str? ==>
              var section := config.value["ibkr"].s;
              (r.Err? <==> Contains(section, "read_only") || Contains(section, "timeout")
                           || Contains(section, "auto_reconnect"))
              && (r.Ok? ==>
                    r.value == Some([ReadOnlyTip, TimeoutTip, ReconnectTip]
                                    + (if Contains(section, "max_rate") then [] else [RateTip])))
    ensures (config.Some? && "ibkr" in config.value && !config.value["ibkr"].Mapping?
             && !config.value["ibkr"].Str?) ==> r.Err?
    ensures config.Some? && "ibkr" in config.value && config.value["ibkr"].Mapping? ==>
              var ibkr := config.value["ibkr"].entries;
              (r.Err? <==> "timeout" in ibkr && AsNumber(ibkr["timeout"]).None?)
              && (r.Ok? ==>
                    (r.value.Some?
                     && (forall t :: t in r.value.value <==> Wanted(ibkr, t))
                     && (forall i, j :: 0 <= i < j < |r.value.value| ==>
                           Rank(r.value.value[i]) < Rank(r.value.value[j]))))
  {
    if config.None? || "ibkr" !in config.value {
      return Ok(None);
    }
    var section := config.value["ibkr"];
    if section.Str? {
      r := SuggestForText(section.s);
      return;
    }
    if !section.Mapping? {
      return Err("TypeError");
    }
    var ibkr := section.entries;
    if "timeout" in ibkr && AsNumber(ibkr["timeout"]).None? {
      return Err("TypeError");
    }
    var suggestions: seq<Tip> := [];
    for k := 0 to 4
      invariant forall t :: t in suggestions <==> Rank(t) < k && Wanted(ibkr, t)
      invariant forall i :: 0 <= i < |suggestions| ==> Rank(suggestions[i]) < k
      invariant forall i, j :: 0 <= i < j < |suggestions| ==> Rank(suggestions[i]) < Rank(suggestions[j])
    {
      var t := Tips[k];
      assert Rank(t) == k;
      assert forall u :: Rank(u) == k ==> u == t;
      if Wanted(ibkr, t) {
        suggestions := suggestions + [t];
      }
    }
    return Ok(Some(suggestions));
  }

  /** `suggest_improvements` on a string section: each `not in` that fails to find its key
      makes the suggestion, and one that finds it reaches `.get`, which a string lacks; the
      rate suggestion only tests `not in`. */
  method SuggestForText(section: string) returns (r: Result<Option<seq<Tip>>>)
    ensures r.Err? <==> Contains(section, "read_only") || Contains(section, "timeout")
                        || Contains(section, "auto_reconnect")
    ensures r.Ok? ==>
              r.value == Some([ReadOnlyTip, TimeoutTip, ReconnectTip]
                              + (if Contains(section, "max_rate") then [] else [RateTip]))
  {
    var suggestions: seq<Tip> := [];
    if Contains(section, "read_only") {
      return Err("AttributeError");
    }
    suggestions := suggestions + [ReadOnlyTip];
    if Contains(section, "timeout") {
      return Err("AttributeError");
    }
    suggestions := suggestions + [TimeoutTip];
    if Contains(section, "auto_reconnect") {
      return Err("AttributeError");
    }
    suggestions := suggestions + [ReconnectTip];
    assert suggestions == [ReadOnlyTip, TimeoutTip, ReconnectTip];
    if !Contains(section, "max_rate") {
      suggestions := suggestions + [RateTip];
    } else {
      assert suggestions + [] == suggestions;
    }
    return Ok(Some(suggestions));
  }

  /** The two tools agree: a section that passes the check is never told to enable
      reconnection, and is told to raise its timeout only when that is below 20 or missing. */
  lemma PassingSectionNeedsNoReconnectTip(ibkr: map<string, Value>, portOpen: int -> bool)
    requires Sound(ibkr, portOpen)
    ensures !Wanted(ibkr, ReconnectTip)
    ensures Wanted(ibkr, TimeoutTip) ==> "timeout" !in ibkr || AsNumber(ibkr["timeout"]).value < 20
  {
  }
}
