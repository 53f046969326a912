/** The container and configuration operations of the desktop admin `App` in
    `trader-admin/TraderAdmin/app.go`: which Docker containers belong to the trader and how
    Kubernetes ones are renamed, the stack status, the pause/unpause selection, cache
    clearing, the schedule update, the backup listing and the save-and-restart sequence.
    The Docker daemon and the file system answer through parameters (a directory listing,
    a create error); the configuration file and its backup are fields, and a stored
    configuration reads back as the one saved. */
module TraderAdmin {
  import opened Wrappers
  import opened Text
  import opened Seqs
  import opened Numerals

  /** One entry of the Docker container list: its ID, its first name, status, image,
      labels and creation time. */
  datatype Container = Container(id: string, name: string, status: string, image: string,
                                 labels: map<string, string>, created: int)

  /** `ContainerInfo` (the creation time is kept as a Unix time rather than formatted). */
  datatype ContainerInfo = ContainerInfo(id: string, name: string, status: string, created: int)

  const NameKeywords: seq<string> := ["orchestrator", "scanner", "ibkr-trader", "vertical-spread"]
  const ImageKeywords: seq<string> := ["ibkr-trader", "vertical-spread", "trustdan/auto"]

  predicate ContainsAny(s: string, subs: seq<string>) {
    exists i :: 0 <= i < |subs| && Contains(s, subs[i])
  }

  /** Go's `strings.TrimPrefix`. */
  function TrimPrefix(s: string, p: string): (r: string)
    ensures IsPrefix(p, s) ==> p + r == s
    ensures !IsPrefix(p, s) ==> r == s
  {
    if IsPrefix(p, s) then s[|p|..] else s
  }

  function DisplayName(c: Container): string {
    TrimPrefix(c.name, "/")
  }

  predicate NameMatched(c: Container) {
    ContainsAny(DisplayName(c), NameKeywords)
  }

  /** A trader container carries the label app=ibkr-trader, or has one of the name keywords
      in its name, or one of the image keywords in its image. */
  predicate IsTraderContainer(c: Container) {
    ("app" in c.labels && c.labels["app"] == "ibkr-trader")
    || NameMatched(c)
    || ContainsAny(c.image, ImageKeywords)
  }

  /** The name of a Kubernetes container: the second "_"-separated part when there are more
      than two. */
  function KubernetesName(name: string): (r: string)
    ensures |Split(name, '_')| > 2 ==> r == Split(name, '_')[1]
    ensures |Split(name, '_')| <= 2 ==> r == name
    ensures '_' !in r || r == name
  {
    var parts := Split(name, '_');
    if |parts| > 2 then parts[1] else name
  }

  /** The status of a Kubernetes container: "Running" when up, "Stopped" when exited. */
  function KubernetesStatus(status: string): (r: string)
    ensures Contains(status, "Up") ==> r == "Running"
    ensures !Contains(status, "Up") && Contains(status, "Exited") ==> r == "Stopped"
    ensures !Contains(status, "Up") && !Contains(status, "Exited") ==> r == status
  {
    if Contains(status, "Up") then "Running"
    else if Contains(status, "Exited") then "Stopped"
    else status
  }

  /** The entry `GetContainers` reports for a trader container: the 12-character short ID,
      and for a name-matched Kubernetes container ("k8s_" in its name) the cleaned-up name
      and status. */
  function Describe(c: Container): (info: ContainerInfo)
    requires |c.id| >= 12
    ensures info.id == c.id[..12] && info.created == c.created
    ensures NameMatched(c) && Contains(DisplayName(c), "k8s_") ==>
              info.name == KubernetesName(DisplayName(c)) && info.status == KubernetesStatus(c.status)
    ensures !(NameMatched(c) && Contains(DisplayName(c), "k8s_")) ==>
              info.name == DisplayName(c) && info.status == c.status
  {
    var name := DisplayName(c);
    if NameMatched(c) && Contains(name, "k8s_") then
      ContainerInfo(c.id[..12], KubernetesName(name), KubernetesStatus(c.status), c.created)
    else ContainerInfo(c.id[..12], name, c.status, c.created)
  }

  predicate LongIds(cs: seq<Container>) {
    forall i :: 0 <= i < |cs| ==> |cs[i].id| >= 12
  }

  /** The entries of the trader containers, in list order. */
  function Described(cs: seq<Container>): (r: seq<ContainerInfo>)
    requires LongIds(cs)
    ensures |r| <= |cs|
  {
    if |cs| == 0 then []
    else
      var last := cs[|cs| - 1];
      Described(cs[..|cs| - 1]) + (if IsTraderContainer(last) then [Describe(last)] else [])
  }

  /** Exactly the trader containers are reported. */
  lemma {:induction false} DescribedExactly(cs: seq<Container>, c: Container)
    requires LongIds(cs) && c in cs
    ensures IsTraderContainer(c) ==> Describe(c) in Described(cs)
    ensures |Described(cs)| <= |cs|
  {
    var last := cs[|cs| - 1];
    if c != last {
      assert c in cs[..|cs| - 1];
      DescribedExactly(cs[..|cs| - 1], c);
    }
  }

  lemma {:induction false} DescribedOnlyTraders(cs: seq<Container>, info: ContainerInfo)
    requires LongIds(cs) && info in Described(cs)
    ensures exists c :: c in cs && IsTraderContainer(c) && Describe(c) == info
  {
    var init := cs[..|cs| - 1];
    var last := cs[|cs| - 1];
    if info in Described(init) {
      DescribedOnlyTraders(init, info);
      var c :| c in init && IsTraderContainer(c) && Describe(c) == info;
      assert c in cs;
    } else {
      assert IsTraderContainer(last) && info == Describe(last);
    }
  }

  /** `GetContainers`: the Docker client (`connected`) lists every container (`listing`,
      or the daemon's error), and the trader containers are described in order. */
  method GetContainers(connected: bool, listing: Result<seq<Container>>)
    returns (r: Result<seq<ContainerInfo>>)
    requires listing.Ok? ==> LongIds(listing.value)
    ensures !connected ==> r == Err("Docker client not initialized")
    ensures connected && listing.Err? ==> r == Err("failed to list containers: " + listing.msg)
    ensures connected && listing.Ok? ==> r == Ok(Described(listing.value))
  {
    if !connected {
      return Err("Docker client not initialized");
    }
    if listing.Err? {
      return Err("failed to list containers: " + listing.msg);
    }
    var containers := listing.value;
    var result: seq<ContainerInfo> := [];
    var i := 0;
    while i < |containers|
      invariant 0 <= i <= |containers|
      invariant result == Described(containers[..i])
    {
      assert containers[..i + 1][..i] == containers[..i];
      var c := containers[i];
      if IsTraderContainer(c) {
        result := result + [Describe(c)];
      }
      i := i + 1;
    }
    assert containers[..i] == containers;
    return Ok(result);
  }

  predicate IsUp(status: string) {
    Contains(status, "Up")
  }

  /** `Status` as written: "No Containers" for an empty list, "Running" when every reported
      status contains "Up", "Partial" otherwise. */
  function StatusAsWritten(infos: seq<ContainerInfo>): string {
    if |infos| == 0 then "No Containers"
    else if forall i :: 0 <= i < |infos| ==> IsUp(infos[i].status) then "Running"
    else "Partial"
  }

  /** A running Kubernetes pod makes the stack "Partial" as written: `GetContainers` has
      already turned its status into "Running", which does not contain "Up". */
  lemma KubernetesPodMakesStackPartial(pod: Container)
    requires |pod.id| >= 12 && IsUp(pod.status)
    requires NameMatched(pod) && Contains(DisplayName(pod), "k8s_")
    ensures IsTraderContainer(pod) && Describe(pod).status == "Running"
    ensures StatusAsWritten(Described([pod])) == "Partial"
  {
    assert [pod][..0] == [];
    var infos := Described([pod]);
    assert infos == [Describe(pod)];
    NotContainsFirst("Running", "Up");
    assert !IsUp(infos[0].status);
    assert !(forall i :: 0 <= i < |infos| ==> IsUp(infos[i].status));
  }

  /** A pod named as Kubernetes names it, "k8s_scanner_pod_ns_uid_0", is such a pod. */
  lemma ScannerPodIsRenamed()
    ensures var pod := Container("0123456789abcdef", "/k8s_scanner_pod_ns_uid_0",
                                 "Up 5 minutes", "", map[], 0);
            IsUp(pod.status) && NameMatched(pod) && Contains(DisplayName(pod), "k8s_")
  {
    var status := "Up 5 minutes";
    ContainsAt(status, "Up", 0);
    var name: string := "k8s_scanner_pod_ns_uid_0";
    assert IsPrefix("/", "/" + name);
    assert TrimPrefix("/" + name, "/") == name;
    assert name[4..11] == "scanner";
    ContainsAt(name, "scanner", 4);
    assert Contains(name, NameKeywords[1]);
    assert name[0..4] == "k8s_";
    ContainsAt(name, "k8s_", 0);
  }

  /** Whether a reported container is running: its Docker status says "Up", or it is a
      Kubernetes container whose status was normalised to "Running". */
  predicate IsRunning(status: string) {
    IsUp(status) || status == "Running"
  }

  /** `Status` as intended: "Running" when every reported container is running. */
  function StackStatus(infos: seq<ContainerInfo>): (r: string)
    ensures |infos| == 0 <==> r == "No Containers"
    ensures r == "Running" <==> |infos| > 0 && forall i :: 0 <= i < |infos| ==> IsRunning(infos[i].status)
    ensures r == "Partial" <==> exists i :: 0 <= i < |infos| && !IsRunning(infos[i].status)
  {
    if |infos| == 0 then "No Containers"
    else if forall i :: 0 <= i < |infos| ==> IsRunning(infos[i].status) then "Running"
    else "Partial"
  }

  /** Every trader container up means the stack is reported "Running", renamed pods
      included. */
  lemma {:induction false} AllUpIsRunning(cs: seq<Container>)
    requires LongIds(cs) && forall i :: 0 <= i < |cs| ==> IsUp(cs[i].status)
    ensures forall i :: 0 <= i < |Described(cs)| ==> IsRunning(Described(cs)[i].status)
  {
    if |cs| > 0 {
      AllUpIsRunning(cs[..|cs| - 1]);
    }
  }

  /** `Status`, counting a container as running by `IsRunning`. */
  method Status(connected: bool, listing: Result<seq<Container>>) returns (r: Result<string>)
    requires listing.Ok? ==> LongIds(listing.value)
    ensures !connected ==> r == Err("Docker client not initialized")
    ensures connected && listing.Err? ==> r == Err("failed to list containers: " + listing.msg)
    ensures connected && listing.Ok? ==> r == Ok(StackStatus(Described(listing.value)))
  {
    if !connected {
      return Err("Docker client not initialized");
    }
    var containers := GetContainers(connected, listing);
    if containers.Err? {
      return Err(containers.msg);
    }
    var infos := containers.value;
    if |infos| == 0 {
      return Ok("No Containers");
    }
    var allRunning := true;
    var runningCount := 0;
    var i := 0;
    while i < |infos|
      invariant 0 <= i <= |infos| && runningCount <= i
      invariant allRunning <==> forall k :: 0 <= k < i ==> IsRunning(infos[k].status)
    {
      if IsRunning(infos[i].status) {
        runningCount := runningCount + 1;
      } else {
        allRunning := false;
      }
      i := i + 1;
    }
    if allRunning {
      return Ok("Running");
    }
    return Ok("Partial");
  }

  /** The per-container operations of the stack-wide actions. */
  datatype StackAction = Pause | Unpause | Reload

  predicate IsKubernetes(info: ContainerInfo) {
    Contains(info.name, "k8s_")
  }

  /** Which reported containers an action touches: never a Kubernetes one; `PauseStack`
      the running ones not already paused, `UnpauseStack` the paused ones, `ReloadConfig`
      the running ones. */
  predicate Eligible(action: StackAction, info: ContainerInfo) {
    !IsKubernetes(info) &&
    match action
    case Pause => !Contains(info.status, "Paused") && IsUp(info.status)
    case Unpause => Contains(info.status, "Paused")
    case Reload => IsUp(info.status)
  }

  /** The IDs of the containers an action touches, in list order. */
  function EligibleIds(action: StackAction, infos: seq<ContainerInfo>): (r: seq<string>)
    ensures |r| <= |infos|
  {
    if |infos| == 0 then []
    else
      var last := infos[|infos| - 1];
      EligibleIds(action, infos[..|infos| - 1]) + (if Eligible(action, last) then [last.id] else [])
  }

  lemma {:induction false} EligibleIdsAppend(action: StackAction, a: seq<ContainerInfo>,
                                             b: seq<ContainerInfo>)
    ensures EligibleIds(action, a + b) == EligibleIds(action, a) + EligibleIds(action, b)
    decreases |b|
  {
    if |b| == 0 {
      assert a + b == a;
    } else {
      assert (a + b)[..|a + b| - 1] == a + b[..|b| - 1];
      EligibleIdsAppend(action, a, b[..|b| - 1]);
    }
  }

  /** An ID is targeted exactly when some eligible container has it. */
  lemma {:induction false} EligibleIdsExactly(action: StackAction, infos: seq<ContainerInfo>,
                                              id: string)
    ensures id in EligibleIds(action, infos) <==>
            exists k :: 0 <= k < |infos| && Eligible(action, infos[k]) && infos[k].id == id
  {
    if |infos| > 0 {
      var init := infos[..|infos| - 1];
      EligibleIdsExactly(action, init, id);
      if id in EligibleIds(action, init) {
        var k :| 0 <= k < |init| && Eligible(action, init[k]) && init[k].id == id;
        assert infos[k] == init[k];
      }
      if exists k :: 0 <= k < |infos| && Eligible(action, infos[k]) && infos[k].id == id {
        var k :| 0 <= k < |infos| && Eligible(action, infos[k]) && infos[k].id == id;
        if k < |init| {
          assert init[k] == infos[k];
        }
      }
    }
  }

  /** Applying `outcome` (an error, or none) to the targets in order and stopping at the
      first error: `done` are the targets that succeeded before it. */
  predicate StopsAtFirstError(targets: seq<string>, done: seq<string>, err: Option<string>,
                              outcome: string -> Option<string>)
  {
    |done| <= |targets| && done == targets[..|done|]
    && (forall k :: 0 <= k < |done| ==> outcome(done[k]).None?)
    && (err.None? ==> done == targets)
    && (err.Some? ==> |done| < |targets| && outcome(targets[|done|]) == err)
  }

  /** The same run, computed target by target. */
  function FirstError(targets: seq<string>, outcome: string -> Option<string>)
    : (r: (seq<string>, Option<string>))
    ensures |r.0| <= |targets|
    ensures r.1.Some? ==> |r.0| < |targets|
  {
    if |targets| == 0 then ([], None)
    else if outcome(targets[0]).Some? then ([], outcome(targets[0]))
    else
      var rest := FirstError(targets[1..], outcome);
      ([targets[0]] + rest.0, rest.1)
  }

  /** The predicate and the function agree: exactly one outcome stops at the first error. */
  lemma {:induction false} FirstErrorIsTheRun(targets: seq<string>, done: seq<string>,
                                              err: Option<string>, outcome: string -> Option<string>)
    ensures StopsAtFirstError(targets, done, err, outcome) <==> (done, err) == FirstError(targets, outcome)
    decreases |targets|
  {
    if |targets| > 0 {
      var rest := FirstError(targets[1..], outcome);
      if outcome(targets[0]).None? {
        if |done| > 0 {
          FirstErrorIsTheRun(targets[1..], done[1..], err, outcome);
          if StopsAtFirstError(targets, done, err, outcome) {
            assert done[1..] == targets[1..][..|done| - 1];
            assert forall k :: 0 <= k < |done| - 1 ==> done[1..][k] == done[k + 1];
            assert done == [targets[0]] + done[1..];
          }
          if (done, err) == FirstError(targets, outcome) {
            assert done[1..] == rest.0;
            assert forall k :: 0 <= k < |done| - 1 ==> done[k + 1] == done[1..][k];
            assert forall k :: 0 <= k < |done| ==> outcome(done[k]).None? by {
              forall k | 0 <= k < |done|
                ensures outcome(done[k]).None?
              {
                if k > 0 {
                  assert done[k] == done[1..][k - 1];
                }
              }
            }
          }
        } else {
          assert (done, err) != FirstError(targets, outcome);
        }
      }
    }
  }

  /** Where the run stops when the eligible container at position `i` fails. */
  lemma StopsAt(action: StackAction, infos: seq<ContainerInfo>, i: nat, done: seq<string>,
                outcome: string -> Option<string>)
    requires i < |infos| && Eligible(action, infos[i]) && outcome(infos[i].id).Some?
    requires done == EligibleIds(action, infos[..i])
    requires forall k :: 0 <= k < |done| ==> outcome(done[k]).None?
    ensures StopsAtFirstError(EligibleIds(action, infos), done, outcome(infos[i].id), outcome)
  {
    assert infos[..i + 1][..i] == infos[..i];
    assert infos == infos[..i + 1] + infos[i + 1..];
    EligibleIdsAppend(action, infos[..i + 1], infos[i + 1..]);
  }

  /** The loop of `PauseStack`, `UnpauseStack` and `ReloadConfig`: act on each eligible
      container in list order (`outcome` is what `PauseContainer`, `UnpauseContainer` or
      `SendSignal` returns), returning the first error. */
  method ActOnEligible(action: StackAction, infos: seq<ContainerInfo>,
                       outcome: string -> Option<string>)
    returns (done: seq<string>, err: Option<string>)
    ensures StopsAtFirstError(EligibleIds(action, infos), done, err, outcome)
  {
    done := [];
    var i := 0;
    while i < |infos|
      invariant 0 <= i <= |infos|
      invariant done == EligibleIds(action, infos[..i])
      invariant forall k :: 0 <= k < |done| ==> outcome(done[k]).None?
    {
      var c := infos[i];
      assert infos[..i + 1][..i] == infos[..i];
      if Eligible(action, c) {
        var e := outcome(c.id);
        if e.Some? {
          StopsAt(action, infos, i, done, outcome);
          return done, e;
        }
        done := done + [c.id];
      }
      i := i + 1;
    }
    assert infos[..i] == infos;
    err := None;
  }

  /** What a stack-wide action does: it lists the containers, then acts on the eligible
      ones until the first error. */
  function StackRun(action: StackAction, connected: bool, listing: Result<seq<Container>>,
                    outcome: string -> Option<string>): (r: (seq<string>, Option<string>))
    requires listing.Ok? ==> LongIds(listing.value)
    ensures !connected ==> r == ([], Some("Docker client not initialized"))
    ensures connected && listing.Err? ==> r == ([], Some("failed to list containers: " + listing.msg))
    ensures connected && listing.Ok? ==>
              StopsAtFirstError(EligibleIds(action, Described(listing.value)), r.0, r.1, outcome)
  {
    if !connected then ([], Some("Docker client not initialized"))
    else if listing.Err? then ([], Some("failed to list containers: " + listing.msg))
    else
      var targets := EligibleIds(action, Described(listing.value));
      FirstErrorIsTheRun(targets, FirstError(targets, outcome).0, FirstError(targets, outcome).1,
                         outcome);
      FirstError(targets, outcome)
  }

  /** `PauseStack`, `UnpauseStack` and `ReloadConfig`: the containers acted on and the
      error returned. */
  method RunStackAction(action: StackAction, connected: bool, listing: Result<seq<Container>>,
                        outcome: string -> Option<string>)
    returns (done: seq<string>, err: Option<string>)
    requires listing.Ok? ==> LongIds(listing.value)
    ensures (done, err) == StackRun(action, connected, listing, outcome)
  {
    var containers := GetContainers(connected, listing);
    if containers.Err? {
      return [], Some(containers.msg);
    }
    done, err := ActOnEligible(action, containers.value, outcome);
    FirstErrorIsTheRun(EligibleIds(action, containers.value), done, err, outcome);
  }

  /** Go's `filepath.Join(dir, name)` for a clean directory and a plain entry name. */
  function PathJoin(dir: string, name: string): (r: string)
    ensures IsSuffix("/" + name, r) && IsPrefix(dir, r)
  {
    dir + "/" + name
  }

  /** The directory `ClearCache` empties for each cache type. */
  function CacheDir(cacheType: string, baseDir: string): (r: Option<string>)
    ensures r.Some? <==> cacheType in {"all", "universe", "minute", "options"}
    ensures cacheType == "all" ==> r == Some(baseDir)
    ensures cacheType in {"universe", "minute", "options"} ==> r == Some(PathJoin(baseDir, cacheType))
  {
    match cacheType
    case "all" => Some(baseDir)
    case "universe" => Some(PathJoin(baseDir, "universe"))
    case "minute" => Some(PathJoin(baseDir, "minute"))
    case "options" => Some(PathJoin(baseDir, "options"))
    case _ => None
  }

  /** One entry of a directory listing. */
  datatype DirEntry = DirEntry(name: string, isDir: bool)

  predicate IsBackupFile(e: DirEntry) {
    !e.isDir && IsSuffix(".toml", e.name)
  }

  /** The backup paths of a listing of `dir`, in listing order. */
  function Backups(dir: string, entries: seq<DirEntry>): (r: seq<string>)
    ensures |r| <= |entries|
  {
    if |entries| == 0 then []
    else
      var last := entries[|entries| - 1];
      Backups(dir, entries[..|entries| - 1])
      + (if IsBackupFile(last) then [PathJoin(dir, last.name)] else [])
  }

  /** A path is listed exactly when a non-directory ".toml" entry joins to it. */
  lemma {:induction false} BackupsExactly(dir: string, entries: seq<DirEntry>, path: string)
    ensures path in Backups(dir, entries) <==>
            exists k :: 0 <= k < |entries| && IsBackupFile(entries[k]) && PathJoin(dir, entries[k].name) == path
  {
    if |entries| > 0 {
      var init := entries[..|entries| - 1];
      BackupsExactly(dir, init, path);
      if path in Backups(dir, init) {
        var k :| 0 <= k < |init| && IsBackupFile(init[k]) && PathJoin(dir, init[k].name) == path;
        assert entries[k] == init[k];
      }
      if exists k :: 0 <= k < |entries| && IsBackupFile(entries[k]) && PathJoin(dir, entries[k].name) == path {
        var k :| 0 <= k < |entries| && IsBackupFile(entries[k]) && PathJoin(dir, entries[k].name) == path;
        if k < |init| {
          assert init[k] == entries[k];
        }
      }
    }
  }

  /** `ScheduleConfig`. */
  datatype ScheduleConfig = ScheduleConfig(autoStartEnabled: bool, autoStopEnabled: bool,
                                           startTime: string, stopTime: string, timezone: string)

  /** The parts of `Config` these operations read or write; `others` stands for the
      remaining sections, which they carry over unchanged. */
  datatype AdminConfig = AdminConfig(cacheDir: string, backupDir: string,
                                     schedule: ScheduleConfig, others: map<string, string>)

  /** The state of `config.toml` (and of its `.bak` copy): absent, present but not
      decodable, or holding a configuration. */
  datatype ConfigFile = Missing | Undecodable(reason: string) | Stored(config: AdminConfig)

  /** One step of `SaveAndRestart`: the save, or a pause, an unpause or a reload signal
      (SIGUSR1) sent to one container. */
  datatype Step = Saved | Acted(action: StackAction, id: string)

  function Steps(action: StackAction, ids: seq<string>): (r: seq<Step>)
    ensures |r| == |ids| && forall k :: 0 <= k < |ids| ==> r[k] == Acted(action, ids[k])
  {
    if |ids| == 0 then [] else [Acted(action, ids[0])] + Steps(action, ids[1..])
  }

  /** The phase of a step: saving, pausing, unpausing, signalling. */
  function Phase(s: Step): nat {
    match s
    case Saved => 0
    case Acted(Pause, _) => 1
    case Acted(Unpause, _) => 2
    case Acted(Reload, _) => 3
  }

  /** Steps happen phase after phase, and the save happens at most once, first. */
  predicate InPhaseOrder(trace: seq<Step>) {
    (forall i, j :: 0 <= i < j < |trace| ==> Phase(trace[i]) <= Phase(trace[j]))
    && (forall i :: 0 < i < |trace| ==> trace[i] != Saved)
  }

  lemma StepsPhase(action: StackAction, ids: seq<string>)
    ensures forall k :: 0 <= k < |Steps(action, ids)| ==>
              Phase(Steps(action, ids)[k]) == Phase(Acted(action, ""))
  {
  }

  /** Whether the listing has a running container that is not a Kubernetes one. */
  predicate HasRunningDocker(infos: seq<ContainerInfo>) {
    exists k :: 0 <= k < |infos| && !IsKubernetes(infos[k]) && IsUp(infos[k].status)
  }

  /** The successful signals of `SaveAndRestart`'s last step, which ignores failures. */
  function Signalled(infos: seq<ContainerInfo>, signal: string -> Option<string>): (r: seq<string>)
    ensures forall k :: 0 <= k < |r| ==> signal(r[k]).None?
  {
    if |infos| == 0 then []
    else
      var last := infos[|infos| - 1];
      Signalled(infos[..|infos| - 1], signal)
      + (if Eligible(Reload, last) && signal(last.id).None? then [last.id] else [])
  }

  /** Without a running Docker container nothing is signalled. */
  lemma {:induction false} NoRunningNoSignal(infos: seq<ContainerInfo>, signal: string -> Option<string>)
    requires !HasRunningDocker(infos)
    ensures Signalled(infos, signal) == []
  {
    if |infos| > 0 {
      var init := infos[..|infos| - 1];
      assert !HasRunningDocker(init) by {
        forall k | 0 <= k < |init|
          ensures !(!IsKubernetes(init[k]) && IsUp(init[k].status))
        {
          assert init[k] == infos[k];
        }
      }
      NoRunningNoSignal(init, signal);
      assert !(!IsKubernetes(infos[|infos| - 1]) && IsUp(infos[|infos| - 1].status));
    }
  }

  lemma PhaseBlocks(a: seq<Step>, b: seq<Step>, p: nat, q: nat)
    requires InPhaseOrder(a) && forall k :: 0 <= k < |a| ==> Phase(a[k]) <= p
    requires p <= q && forall k :: 0 <= k < |b| ==> Phase(b[k]) == q && q > 0
    ensures InPhaseOrder(a + b)
    ensures forall k :: 0 <= k < |a + b| ==> Phase((a + b)[k]) <= q
  {
    forall i, j | 0 <= i < j < |a + b|
      ensures Phase((a + b)[i]) <= Phase((a + b)[j])
    {
      if j >= |a| {
        assert (a + b)[j] == b[j - |a|];
        if i >= |a| {
          assert (a + b)[i] == b[i - |a|];
        }
      }
    }
    forall i | 0 < i < |a + b|
      ensures (a + b)[i] != Saved
    {
      if i >= |a| {
        assert (a + b)[i] == b[i - |a|];
        assert Phase(b[i - |a|]) > 0;
      }
    }
  }

  const ConfigDir: string := "config"
  const ConfigPath: string := PathJoin(ConfigDir, "config.toml")

  /** The admin `App`: whether its Docker client is present, and the configuration file
      with its backup copy. */
  class AdminApp {
    const connected: bool
    var configFile: ConfigFile
    var configBackup: ConfigFile

    constructor(connected: bool, configFile: ConfigFile, configBackup: ConfigFile)
      ensures this.connected == connected && this.configFile == configFile
      ensures this.configBackup == configBackup
    {
      this.connected := connected;
      this.configFile := configFile;
      this.configBackup := configBackup;
    }

    /** `LoadConfig`. */
    function LoadConfig(): Result<AdminConfig>
      reads this
    {
      match configFile
      case Missing => Err("configuration file not found: " + ConfigPath)
      case Undecodable(reason) => Err("failed to decode config file: " + reason)
      case Stored(config) => Ok(config)
    }

    /** `SaveConfig`: an existing file is first copied to the backup; then the file is
        written unless creating it fails (`createError`), after which it loads back as
        `config`. */
    method SaveConfig(config: AdminConfig, createError: Option<string>) returns (err: Option<string>)
      modifies this
      ensures configBackup == if old(configFile).Missing? then old(configBackup) else old(configFile)
      ensures createError.None? ==> err.None? && LoadConfig() == Ok(config)
      ensures createError.Some? ==>
                err == Some("failed to create config file: " + createError.value)
                && configFile == old(configFile)
    {
      if !configFile.Missing? {
        configBackup := configFile;
      }
      if createError.Some? {
        return Some("failed to create config file: " + createError.value);
      }
      configFile := Stored(config);
      return None;
    }

    /** `ConfigureSchedule`: both times must read as "15:04" before the configuration is
        loaded, and only its schedule section changes. */
    method ConfigureSchedule(schedule: ScheduleConfig, createError: Option<string>)
      returns (err: Option<string>)
      modifies this
      ensures ParseHourMinute(schedule.startTime).None? ==>
                err == Some("invalid start time format: " + schedule.startTime
                            + ". Use HH:MM 24-hour format")
                && unchanged(this)
      ensures ParseHourMinute(schedule.startTime).Some? && ParseHourMinute(schedule.stopTime).None? ==>
                err == Some("invalid stop time format: " + schedule.stopTime
                            + ". Use HH:MM 24-hour format")
                && unchanged(this)
      ensures err.None? ==>
                ParseHourMinute(schedule.startTime).Some? && ParseHourMinute(schedule.stopTime).Some?
                && old(LoadConfig()).Ok?
                && LoadConfig() == Ok(old(LoadConfig()).value.(schedule := schedule))
      ensures ParseHourMinute(schedule.startTime).Some? && ParseHourMinute(schedule.stopTime).Some? ==>
                (old(LoadConfig()).Err? ==>
                   err == Some("failed to load config: " + old(LoadConfig()).msg) && unchanged(this))
                && (old(LoadConfig()).Ok? && createError.Some? ==>
                      err == Some("failed to save schedule config: "
                                  + ("failed to create config file: " + createError.value))
                      && configFile == old(configFile))
                && (old(LoadConfig()).Ok? && createError.None? ==> err.None?)
    {
      if ParseHourMinute(schedule.startTime).None? {
        return Some("invalid start time format: " + schedule.startTime + ". Use HH:MM 24-hour format");
      }
      if ParseHourMinute(schedule.stopTime).None? {
        return Some("invalid stop time format: " + schedule.stopTime + ". Use HH:MM 24-hour format");
      }
      var loaded := LoadConfig();
      if loaded.Err? {
        return Some("failed to load config: " + loaded.msg);
      }
      var config := loaded.value.(schedule := schedule);
      var saveErr := SaveConfig(config, createError);
      if saveErr.Some? {
        return Some("failed to save schedule config: " + saveErr.value);
      }
      return None;
    }

    /** `ClearCache`: after the configuration loads and its cache directory exists, the
        directory of the cache type is emptied entry by entry (`fs` lists a directory, or
        has none; `removeError` is what deleting a path returns), stopping at the first
        failure. An unknown type deletes nothing. */
    method ClearCache(cacheType: string, fs: string -> Option<Result<seq<DirEntry>>>,
                      removeError: string -> Option<string>)
      returns (deleted: seq<string>, err: Option<string>)
      ensures LoadConfig().Err? ==> deleted == [] && err == Some("failed to load config: " + LoadConfig().msg)
      ensures LoadConfig().Ok? && fs(LoadConfig().value.cacheDir).None? ==>
                deleted == [] && err == Some("cache directory does not exist: " + LoadConfig().value.cacheDir)
      ensures LoadConfig().Ok? && CacheDir(cacheType, LoadConfig().value.cacheDir).None? ==>
                deleted == [] && err.Some?
      ensures LoadConfig().Ok? && fs(LoadConfig().value.cacheDir).Some?
              && CacheDir(cacheType, LoadConfig().value.cacheDir).None? ==>
                err == Some("unknown cache type: " + cacheType)
      ensures LoadConfig().Ok? && fs(LoadConfig().value.cacheDir).Some?
              && CacheDir(cacheType, LoadConfig().value.cacheDir).Some? ==>
                var dir := CacheDir(cacheType, LoadConfig().value.cacheDir).value;
                (fs(dir).None? ==> deleted == [] && err.None?)
                && (fs(dir).Some? && fs(dir).value.Err? ==>
                      deleted == [] && err == Some("failed to read directory " + dir + ": " + fs(dir).value.msg))
                && (fs(dir).Some? && fs(dir).value.Ok? ==>
                      var paths := Paths(dir, fs(dir).value.value);
                      var run := FirstError(paths, removeError);
                      deleted == run.0
                      && (run.1.None? ==> err.None?)
                      && (run.1.Some? ==> err == Some("failed to delete " + paths[|deleted|] + ": " + run.1.value)))
    {
      var loaded := LoadConfig();
      if loaded.Err? {
        return [], Some("failed to load config: " + loaded.msg);
      }
      var baseDir := loaded.value.cacheDir;
      if fs(baseDir).None? {
        return [], Some("cache directory does not exist: " + baseDir);
      }
      var toClear := CacheDir(cacheType, baseDir);
      if toClear.None? {
        return [], Some("unknown cache type: " + cacheType);
      }
      var dir := toClear.value;
      var listing := fs(dir);
      if listing.None? {
        return [], None;
      }
      if listing.value.Err? {
        return [], Some("failed to read directory " + dir + ": " + listing.value.msg);
      }
      var entries := listing.value.value;
      ghost var paths := Paths(dir, entries);
      deleted := [];
      var i := 0;
      while i < |entries|
        invariant 0 <= i <= |entries| && deleted == paths[..i]
        invariant forall k :: 0 <= k < i ==> removeError(paths[k]).None?
      {
        var path := PathJoin(dir, entries[i].name);
        var e := removeError(path);
        if e.Some? {
          FirstErrorIsTheRun(paths, deleted, e, removeError);
          return deleted, Some("failed to delete " + path + ": " + e.value);
        }
        deleted := deleted + [path];
        i := i + 1;
      }
      assert deleted == paths;
      FirstErrorIsTheRun(paths, deleted, None, removeError);
      err := None;
    }

    /** `ListBackups`: the ".toml" files of the configured backup directory, or none when
        that directory does not exist. */
    method ListBackups(fs: string -> Option<Result<seq<DirEntry>>>) returns (r: Result<seq<string>>)
      ensures LoadConfig().Err? ==> r == Err("failed to load config: " + LoadConfig().msg)
      ensures LoadConfig().Ok? ==>
                var dir := LoadConfig().value.backupDir;
                (fs(dir).None? ==> r == Ok([]))
                && (fs(dir).Some? && fs(dir).value.Err? ==>
                      r == Err("failed to read backup directory: " + fs(dir).value.msg))
                && (fs(dir).Some? && fs(dir).value.Ok? ==> r == Ok(Backups(dir, fs(dir).value.value)))
    {
      var loaded := LoadConfig();
      if loaded.Err? {
        return Err("failed to load config: " + loaded.msg);
      }
      var dir := loaded.value.backupDir;
      var listing := fs(dir);
      if listing.None? {
        return Ok([]);
      }
      if listing.value.Err? {
        return Err("failed to read backup directory: " + listing.value.msg);
      }
      var entries := listing.value.value;
      var backups: seq<string> := [];
      var i := 0;
      while i < |entries|
        invariant 0 <= i <= |entries| && backups == Backups(dir, entries[..i])
      {
        assert entries[..i + 1][..i] == entries[..i];
        if !entries[i].isDir && IsSuffix(".toml", entries[i].name) {
          backups := backups + [PathJoin(dir, entries[i].name)];
        }
        i := i + 1;
      }
      assert entries[..i] == entries;
      return Ok(backups);
    }

    /** `SaveAndRestart`: save the configuration first; only then list the containers and
        restart the stack. A failed save touches no container. */
    method SaveAndRestart(config: AdminConfig, createError: Option<string>,
                          listing: Result<seq<Container>>,
                          pauseListing: Result<seq<Container>>, pauseOutcome: string -> Option<string>,
                          unpauseListing: Result<seq<Container>>, unpauseOutcome: string -> Option<string>,
                          signal: string -> Option<string>)
      returns (trace: seq<Step>, err: Option<string>)
      requires listing.Ok? ==> LongIds(listing.value)
      requires pauseListing.Ok? ==> LongIds(pauseListing.value)
      requires unpauseListing.Ok? ==> LongIds(unpauseListing.value)
      modifies this
      ensures InPhaseOrder(trace)
      ensures createError.Some? ==>
                trace == [] && configFile == old(configFile)
                && err == Some("failed to save config: " + ("failed to create config file: " + createError.value))
      ensures createError.None? ==> LoadConfig() == Ok(config) && |trace| >= 1 && trace[0] == Saved
      ensures createError.None? && !connected ==>
                trace == [Saved]
                && err == Some("failed to get containers: " + "Docker client not initialized")
      ensures createError.None? && connected && listing.Err? ==>
                trace == [Saved]
                && err == Some("failed to get containers: " + ("failed to list containers: " + listing.msg))
      ensures createError.None? && connected && listing.Ok? ==>
                (trace, err) == Restart(Described(listing.value), connected, pauseListing, pauseOutcome,
                                        unpauseListing, unpauseOutcome, signal)
    {
      var saveErr := SaveConfig(config, createError);
      if saveErr.Some? {
        return [], Some("failed to save config: " + saveErr.value);
      }
      assert InPhaseOrder([Saved]);
      var containers := GetContainers(connected, listing);
      if containers.Err? {
        return [Saved], Some("failed to get containers: " + containers.msg);
      }
      trace, err := RestartStack(containers.value, connected, pauseListing, pauseOutcome,
                                 unpauseListing, unpauseOutcome, signal);
      RestartInPhaseOrder(containers.value, connected, pauseListing, pauseOutcome,
                          unpauseListing, unpauseOutcome, signal);
    }
  }

  /** The part of `SaveAndRestart` after a successful save and listing: pause and unpause
      when a Docker container is running, then signal the running Docker containers of the
      listing; the trace starts with the save. */
  function Restart(infos: seq<ContainerInfo>, connected: bool,
                   pauseListing: Result<seq<Container>>, pauseOutcome: string -> Option<string>,
                   unpauseListing: Result<seq<Container>>, unpauseOutcome: string -> Option<string>,
                   signal: string -> Option<string>): (r: (seq<Step>, Option<string>))
    requires pauseListing.Ok? ==> LongIds(pauseListing.value)
    requires unpauseListing.Ok? ==> LongIds(unpauseListing.value)
    ensures |r.0| >= 1 && r.0[0] == Saved
    ensures !HasRunningDocker(infos) ==> r == ([Saved], None)
  {
    if !HasRunningDocker(infos) then
      NoRunningNoSignal(infos, signal);
      ([Saved], None)
    else
      var pause := StackRun(Pause, connected, pauseListing, pauseOutcome);
      var paused := [Saved] + Steps(Pause, pause.0);
      if pause.1.Some? then (paused, Some("failed to pause containers: " + pause.1.value))
      else
        var unpause := StackRun(Unpause, connected, unpauseListing, unpauseOutcome);
        var unpaused := paused + Steps(Unpause, unpause.0);
        if unpause.1.Some? then (unpaused, Some("failed to unpause containers: " + unpause.1.value))
        else (unpaused + Steps(Reload, Signalled(infos, signal)), None)
  }

  /** The save comes first, pausing before unpausing and unpausing before signalling; a
      failed pause or unpause sends no signal. */
  lemma RestartInPhaseOrder(infos: seq<ContainerInfo>, connected: bool,
                   pauseListing: Result<seq<Container>>, pauseOutcome: string -> Option<string>,
                   unpauseListing: Result<seq<Container>>, unpauseOutcome: string -> Option<string>,
                   signal: string -> Option<string>)
    requires pauseListing.Ok? ==> LongIds(pauseListing.value)
    requires unpauseListing.Ok? ==> LongIds(unpauseListing.value)
    ensures var r := Restart(infos, connected, pauseListing, pauseOutcome, unpauseListing,
                             unpauseOutcome, signal);
            InPhaseOrder(r.0) && (r.1.Some? ==> forall k :: 0 <= k < |r.0| ==> Phase(r.0[k]) <= 2)
  {
    if HasRunningDocker(infos) {
      var pause := StackRun(Pause, connected, pauseListing, pauseOutcome);
      var paused := [Saved] + Steps(Pause, pause.0);
      StepsPhase(Pause, pause.0);
      PhaseBlocks([Saved], Steps(Pause, pause.0), 0, 1);
      if pause.1.None? {
        var unpause := StackRun(Unpause, connected, unpauseListing, unpauseOutcome);
        var unpaused := paused + Steps(Unpause, unpause.0);
        StepsPhase(Unpause, unpause.0);
        PhaseBlocks(paused, Steps(Unpause, unpause.0), 1, 2);
        if unpause.1.None? {
          StepsPhase(Reload, Signalled(infos, signal));
          PhaseBlocks(unpaused, Steps(Reload, Signalled(infos, signal)), 2, 3);
        }
      }
    }
  }

  /** Whether a Docker container is running, as `SaveAndRestart` works it out. */
  method AnyRunningDocker(infos: seq<ContainerInfo>) returns (hasDocker: bool)
    ensures hasDocker == HasRunningDocker(infos)
  {
    hasDocker := false;
    var i := 0;
    while i < |infos|
      invariant 0 <= i <= |infos|
      invariant hasDocker <==> exists k :: 0 <= k < i && !IsKubernetes(infos[k]) && IsUp(infos[k].status)
    {
      if IsKubernetes(infos[i]) {
      } else if IsUp(infos[i].status) {
        hasDocker := true;
      }
      i := i + 1;
    }
  }

  /** The signalling loop of `SaveAndRestart`: every running Docker container is sent the
      reload signal; the ones that accepted it are returned. */
  method SignalRunning(infos: seq<ContainerInfo>, signal: string -> Option<string>)
    returns (signalled: seq<string>)
    ensures signalled == Signalled(infos, signal)
  {
    signalled := [];
    var i := 0;
    while i < |infos|
      invariant 0 <= i <= |infos| && signalled == Signalled(infos[..i], signal)
    {
      assert infos[..i + 1][..i] == infos[..i];
      var c := infos[i];
      if !IsKubernetes(c) && IsUp(c.status) {
        var e := signal(c.id);
        if e.None? {
          signalled := signalled + [c.id];
        }
      }
      i := i + 1;
    }
    assert infos[..i] == infos;
  }

  /** The restart phase of `SaveAndRestart`, as its steps happen. */
  method RestartStack(infos: seq<ContainerInfo>, connected: bool,
                      pauseListing: Result<seq<Container>>, pauseOutcome: string -> Option<string>,
                      unpauseListing: Result<seq<Container>>, unpauseOutcome: string -> Option<string>,
                      signal: string -> Option<string>)
    returns (trace: seq<Step>, err: Option<string>)
    requires pauseListing.Ok? ==> LongIds(pauseListing.value)
    requires unpauseListing.Ok? ==> LongIds(unpauseListing.value)
    ensures (trace, err) == Restart(infos, connected, pauseListing, pauseOutcome, unpauseListing,
                                    unpauseOutcome, signal)
  {
    trace := [Saved];
    var hasDocker := AnyRunningDocker(infos);
    if hasDocker {
      var paused, pauseErr := RunStackAction(Pause, connected, pauseListing, pauseOutcome);
      trace := trace + Steps(Pause, paused);
      if pauseErr.Some? {
        return trace, Some("failed to pause containers: " + pauseErr.value);
      }
      var unpaused, unpauseErr := RunStackAction(Unpause, connected, unpauseListing, unpauseOutcome);
      trace := trace + Steps(Unpause, unpaused);
      if unpauseErr.Some? {
        return trace, Some("failed to unpause containers: " + unpauseErr.value);
      }
    }
    var signalled := SignalRunning(infos, signal);
    if !hasDocker {
      NoRunningNoSignal(infos, signal);
      return trace, None;
    }
    trace := trace + Steps(Reload, signalled);
    err := None;
  }

  /** The paths `ClearCache` deletes from `dir`, in listing order. */
  function Paths(dir: string, entries: seq<DirEntry>): (r: seq<string>)
    ensures |r| == |entries| && forall k :: 0 <= k < |entries| ==> r[k] == PathJoin(dir, entries[k].name)
  {
    seq(|entries|, k requires 0 <= k < |entries| => PathJoin(dir, entries[k].name))
  }
}
