/**
 * The orchestration-layer upgrader (`KubernetesUpgrader` in
 * upgrades/kubernetes.go): the same skeleton as the Talos upgrader, plus a
 * lexicographic downgrade check before the dry-run/execute split, and in
 * execute mode a `--dry-run` command that must succeed before the actual one.
 */
module KubernetesUpgrades {
  import opened Wrappers
  import opened Text
  import opened Versions
  import opened Cluster

  /** Current version reported when commands are not executed and no mock is set. */
  const DefaultCurrentVersion := "1.33.3"

  /** Outcome of `talosctl get members -o json`: failure, or the decoded member list (None: not JSON). */
  datatype MembersReply = MembersFailed | MembersOutput(decoded: Option<seq<map<string, Json>>>)

  /** Everything the outside world answers during one Kubernetes upgrade. */
  datatype KubernetesWorld = KubernetesWorld(members: MembersReply, dryRun: CommandRun, upgrade: CommandRun)

  datatype QueryError = CommandFailed | ParseFailed | NoMembers | VersionMissing
  datatype CommandFailure = LogFileFailed | UpgradeCommandFailed

  datatype KubernetesError =
    | InvalidVersion(version: string)
    | CurrentVersionUnknown(cause: QueryError)
    | DowngradeRefused(current: string, target: string)
    | DryRunFailed(failure: CommandFailure)
    | UpgradeFailed(failure: CommandFailure)

  datatype Query = Query(result: Result<string, QueryError>, trace: seq<Event>)

  function MembersQueryArgs(configPath: string, node: string): seq<string>
  {
    ["--talosconfig", configPath, "get", "members", "-o", "json", "-n", node]
  }

  /** `spec.kubernetesVersion` of the first member, with one leading `v` removed. */
  function MembersVersion(members: seq<map<string, Json>>): Result<string, QueryError>
  {
    if |members| == 0 then Err(NoMembers)
    else
      var member := members[0];
      if "spec" in member && member["spec"].JObject? && "kubernetesVersion" in member["spec"].fields
         && member["spec"].fields["kubernetesVersion"].JString?
      then Ok(TrimPrefix(member["spec"].fields["kubernetesVersion"].str, "v"))
      else Err(VersionMissing)
  }

  /** `GetCurrentVersion(node, executeCommands)` of an upgrader whose mock is `mock`. */
  function CurrentVersion(configPath: string, mock: string, node: string, execute: bool,
                          reply: MembersReply): Query
  {
    if !execute then
      Query(Ok(if mock != "" then mock else DefaultCurrentVersion), [])
    else
      var issued := [MembersQuery(MembersQueryArgs(configPath, node))];
      match reply
      case MembersFailed => Query(Err(CommandFailed), issued)
      case MembersOutput(None) => Query(Err(ParseFailed), issued)
      case MembersOutput(Some(members)) => Query(MembersVersion(members), issued)
  }

  /** The decision of `UpgradeToVersion` once the target is valid and cleaned. */
  function Decide(clean: string, current: Result<string, QueryError>, execute: bool): Decision<QueryError>
  {
    if current.Err? && execute then CurrentUnknown(current.error)
    else if current.Ok? && current.value == clean then AlreadyCurrent
    else if current.Ok? && IsDowngrade(current.value, clean) then DowngradeRejected(current.value)
    else if !execute then DryRun
    else Proceed
  }

  /** The argument list of `runUpgradeCommand`, with `--dry-run` appended in dry-run mode. */
  function UpgradeArgs(configPath: string, version: string, node: string, dryRun: bool): (args: seq<string>)
    ensures |args| == if dryRun then 8 else 7
    ensures args[..7] == ["--talosconfig", configPath, "upgrade-k8s", "--to", version, "-n", node]
    ensures dryRun ==> args[7] == "--dry-run"
  {
    var args := ["--talosconfig", configPath, "upgrade-k8s", "--to", version, "-n", node];
    if dryRun then args + ["--dry-run"] else args
  }

  /** `LogPath/k8s-upgrade-<version>-<timestamp>.log` */
  function UpgradeLogPath(logPath: string, version: string, timestamp: string): string
  {
    logPath + "/" + "k8s-upgrade-" + version + "-" + timestamp + ".log"
  }

  /**
   * The dry run and the actual command name their transcripts alike: when both
   * start within the same second, the second `os.Create` reuses (and truncates)
   * the first transcript.
   */
  lemma TranscriptsShareNameWithinOneSecond(configPath: string, logPath: string, version: string, node: string,
                                            dryRun: CommandRun, upgrade: CommandRun)
    requires dryRun.logCreated && upgrade.logCreated && dryRun.timestamp == upgrade.timestamp
    ensures var dry := RunUpgradeCommand(configPath, logPath, version, node, true, true, dryRun);
      var actual := RunUpgradeCommand(configPath, logPath, version, node, false, true, upgrade);
      dry.trace[0].transcript == actual.trace[0].transcript == UpgradeLogPath(logPath, version, dryRun.timestamp)
  {
  }

  /** `runUpgradeCommand`: the transcript is created even when the command is then not run. */
  function RunUpgradeCommand(configPath: string, logPath: string, version: string, node: string,
                             dryRun: bool, execute: bool, run: CommandRun): Run<CommandFailure>
  {
    var path := UpgradeLogPath(logPath, version, run.timestamp);
    if !run.logCreated then Run(Some(LogFileFailed), [])
    else if !execute then Run(None, [TranscriptCreated(path)])
    else
      var issued := [KubernetesUpgrade(dryRun, UpgradeArgs(configPath, version, node, dryRun), path)];
      Run(if run.exitOk then None else Some(UpgradeCommandFailed), issued)
  }

  /**
   * `runUpgradeCommand` fails exactly when the transcript cannot be created
   * or the executed command fails; without execution it only creates the
   * transcript, with execution it runs exactly the `upgrade-k8s` command.
   */
  lemma RunUpgradeCommandOutcome(configPath: string, logPath: string, version: string, node: string,
                                 dryRun: bool, execute: bool, run: CommandRun)
    ensures var r := RunUpgradeCommand(configPath, logPath, version, node, dryRun, execute, run);
      && (r.err.None? <==> run.logCreated && (!execute || run.exitOk))
      && (r.err == Some(LogFileFailed) <==> !run.logCreated)
      && (r.trace == [] <==> !run.logCreated)
      && (run.logCreated && !execute ==> r.trace == [TranscriptCreated(UpgradeLogPath(logPath, version, run.timestamp))])
      && (run.logCreated && execute ==>
            r.trace == [KubernetesUpgrade(dryRun, UpgradeArgs(configPath, version, node, dryRun),
                                          UpgradeLogPath(logPath, version, run.timestamp))])
  {
  }

  /** Specification of `UpgradeToVersion` for an upgrader with the given fields. */
  function KubernetesUpgradeRun(configPath: string, logPath: string, mock: string, version: string,
                             node: string, execute: bool, w: KubernetesWorld): Run<KubernetesError>
  {
    if !IsValidVersion(version) then Run(Some(InvalidVersion(version)), [])
    else
      var clean := CleanVersion(version);
      var q := CurrentVersion(configPath, mock, node, execute, w.members);
      match Decide(clean, q.result, execute)
      case CurrentUnknown(cause) => Run(Some(CurrentVersionUnknown(cause)), q.trace)
      case AlreadyCurrent => Run(None, q.trace)
      case DowngradeRejected(current) => Run(Some(DowngradeRefused(current, clean)), q.trace)
      case DryRun => Run(None, q.trace)
      case Proceed =>
        var dry := RunUpgradeCommand(configPath, logPath, clean, node, true, execute, w.dryRun);
        if dry.err.Some? then Run(Some(DryRunFailed(dry.err.value)), q.trace + dry.trace)
        else
          var actual := RunUpgradeCommand(configPath, logPath, clean, node, false, execute, w.upgrade);
          Run(if actual.err.Some? then Some(UpgradeFailed(actual.err.value)) else None,
              q.trace + dry.trace + actual.trace)
  }

  /** An invalid target is rejected before the current version is looked up, with no effect at all. */
  lemma InvalidTargetHasNoEffect(configPath: string, logPath: string, mock: string, version: string,
                                 node: string, execute: bool, w: KubernetesWorld)
    requires !IsValidVersion(version)
    ensures KubernetesUpgradeRun(configPath, logPath, mock, version, node, execute, w)
            == Run(Some(InvalidVersion(version)), [])
  {
  }

  /** Without command execution the lookup never fails and runs nothing: the mock, else 1.33.3. */
  lemma RehearsalCurrentVersion(configPath: string, mock: string, node: string, reply: MembersReply)
    ensures CurrentVersion(configPath, mock, node, false, reply)
            == Query(Ok(if mock != "" then mock else "1.33.3"), [])
  {
  }

  /**
   * The live lookup fails on an empty member list; otherwise it is the first
   * member's `spec.kubernetesVersion` without one leading `v`, or an error
   * when that field is not a string.
   */
  lemma MembersVersionOfFirstMember(members: seq<map<string, Json>>)
    ensures members == [] <==> MembersVersion(members) == Err(NoMembers)
    ensures members != [] ==>
      (MembersVersion(members).Ok? <==>
        "spec" in members[0] && members[0]["spec"].JObject?
        && "kubernetesVersion" in members[0]["spec"].fields
        && members[0]["spec"].fields["kubernetesVersion"].JString?)
    ensures MembersVersion(members).Ok? ==>
      var raw := members[0]["spec"].fields["kubernetesVersion"].str;
      && (HasPrefix(raw, "v") ==> raw == "v" + MembersVersion(members).value)
      && (!HasPrefix(raw, "v") ==> raw == MembersVersion(members).value)
  {
  }

  /** Only the first member is consulted. */
  lemma MembersVersionIgnoresLaterMembers(first: map<string, Json>, rest: seq<map<string, Json>>,
                                          other: seq<map<string, Json>>)
    ensures MembersVersion([first] + rest) == MembersVersion([first] + other)
  {
  }

  /** A current version equal to the cleaned target succeeds with no upgrade command. */
  lemma AlreadyCurrentHasNoEffect(configPath: string, logPath: string, mock: string, version: string,
                                  node: string, execute: bool, w: KubernetesWorld)
    requires IsValidVersion(version)
    requires CurrentVersion(configPath, mock, node, execute, w.members).result == Ok(CleanVersion(version))
    ensures var r := KubernetesUpgradeRun(configPath, logPath, mock, version, node, execute, w);
      r.err.None? && forall e :: e in r.trace ==> e.MembersQuery?
  {
  }

  /**
   * A current version lexicographically above the cleaned target is refused,
   * whether or not commands are executed, and no upgrade command is issued.
   */
  lemma DowngradeRefusedInBothModes(configPath: string, logPath: string, mock: string, version: string,
                                    node: string, execute: bool, w: KubernetesWorld, current: string)
    requires IsValidVersion(version)
    requires CurrentVersion(configPath, mock, node, execute, w.members).result == Ok(current)
    requires LexLess(CleanVersion(version), current)
    ensures var r := KubernetesUpgradeRun(configPath, logPath, mock, version, node, execute, w);
      r.err == Some(DowngradeRefused(current, CleanVersion(version))) &&
      forall e :: e in r.trace ==> e.MembersQuery?
  {
    DowngradeIsLexicographicGreater(current, CleanVersion(version));
  }

  /** Without command execution no command at all is issued and no transcript is created. */
  lemma RehearsalHasNoEffect(configPath: string, logPath: string, mock: string, version: string,
                             node: string, w: KubernetesWorld)
    ensures KubernetesUpgradeRun(configPath, logPath, mock, version, node, false, w).trace == []
  {
  }

  /**
   * In execute mode the dry run comes first; the actual upgrade is issued only
   * after a successful dry run, and then right after it.
   */
  lemma DryRunPrecedesUpgrade(configPath: string, logPath: string, mock: string, version: string,
                              node: string, execute: bool, w: KubernetesWorld)
    ensures var r := KubernetesUpgradeRun(configPath, logPath, mock, version, node, execute, w);
      && (forall j :: 0 <= j < |r.trace| && r.trace[j].KubernetesUpgrade? && !r.trace[j].dryRun ==>
            && j >= 1 && r.trace[j - 1].KubernetesUpgrade? && r.trace[j - 1].dryRun && Succeeds(w.dryRun)
            && r.trace[j - 1].args == r.trace[j].args + ["--dry-run"])
      && (!Succeeds(w.dryRun) ==> forall e :: e in r.trace ==> !(e.KubernetesUpgrade? && !e.dryRun))
  {
    var r := KubernetesUpgradeRun(configPath, logPath, mock, version, node, execute, w);
    if IsValidVersion(version) {
      var clean := CleanVersion(version);
      var q := CurrentVersion(configPath, mock, node, execute, w.members);
      if Decide(clean, q.result, execute) == Proceed {
        var dry := RunUpgradeCommand(configPath, logPath, clean, node, true, execute, w.dryRun);
        if dry.err.None? {
          var actual := RunUpgradeCommand(configPath, logPath, clean, node, false, execute, w.upgrade);
          assert r.trace == q.trace + dry.trace + actual.trace;
          assert |q.trace| == 1 && |dry.trace| == 1;
          DryRunArgsExtendRealArgs(configPath, clean, node);
        }
      }
    }
  }

  /**
   * A live run that decides to proceed issues the members query, the dry run
   * when its transcript can be created, and the actual command for the same
   * version and node exactly when the dry run succeeded and the second
   * transcript can be created; it succeeds exactly when both commands do.
   */
  lemma LiveProceedUpgrades(configPath: string, logPath: string, mock: string, version: string,
                            node: string, w: KubernetesWorld, current: string)
    requires IsValidVersion(version)
    requires CurrentVersion(configPath, mock, node, true, w.members).result == Ok(current)
    requires Decide(CleanVersion(version), Ok(current), true) == Proceed
    ensures var r := KubernetesUpgradeRun(configPath, logPath, mock, version, node, true, w);
      var clean := CleanVersion(version);
      && (r.err.None? <==> Succeeds(w.dryRun) && Succeeds(w.upgrade))
      && (!w.dryRun.logCreated ==> r.err == Some(DryRunFailed(LogFileFailed)))
      && (w.dryRun.logCreated && !w.dryRun.exitOk ==> r.err == Some(DryRunFailed(UpgradeCommandFailed)))
      && (Succeeds(w.dryRun) && !w.upgrade.logCreated ==> r.err == Some(UpgradeFailed(LogFileFailed)))
      && (Succeeds(w.dryRun) && w.upgrade.logCreated && !w.upgrade.exitOk ==> r.err == Some(UpgradeFailed(UpgradeCommandFailed)))
      && r.trace ==
           [MembersQuery(MembersQueryArgs(configPath, node))]
           + (if w.dryRun.logCreated
              then [KubernetesUpgrade(true, UpgradeArgs(configPath, clean, node, true),
                                      UpgradeLogPath(logPath, clean, w.dryRun.timestamp))]
              else [])
           + (if Succeeds(w.dryRun) && w.upgrade.logCreated
              then [KubernetesUpgrade(false, UpgradeArgs(configPath, clean, node, false),
                                      UpgradeLogPath(logPath, clean, w.upgrade.timestamp))]
              else [])
  {
    var clean := CleanVersion(version);
    var q := CurrentVersion(configPath, mock, node, true, w.members);
    var dry := RunUpgradeCommand(configPath, logPath, clean, node, true, true, w.dryRun);
    RunUpgradeCommandOutcome(configPath, logPath, clean, node, true, true, w.dryRun);
    var actual := RunUpgradeCommand(configPath, logPath, clean, node, false, true, w.upgrade);
    RunUpgradeCommandOutcome(configPath, logPath, clean, node, false, true, w.upgrade);
    var r := KubernetesUpgradeRun(configPath, logPath, mock, version, node, true, w);
    assert q.trace == [MembersQuery(MembersQueryArgs(configPath, node))];
    if dry.err.Some? {
      assert r == Run(Some(DryRunFailed(dry.err.value)), q.trace + dry.trace);
      assert q.trace + dry.trace == q.trace + dry.trace + [];
    } else {
      assert r.trace == q.trace + dry.trace + actual.trace;
    }
  }

  /** Every effect of the orchestration-layer upgrade is one of its own: the members query or an `upgrade-k8s` run. */
  lemma KubernetesUpgradeEffectsAreKubernetes(configPath: string, logPath: string, mock: string, version: string,
                                              node: string, execute: bool, w: KubernetesWorld)
    ensures forall e :: e in KubernetesUpgradeRun(configPath, logPath, mock, version, node, execute, w).trace ==>
              IsKubernetesEvent(e)
  {
  }

  /** The actual command's arguments are those of the dry run without the trailing `--dry-run`. */
  lemma DryRunArgsExtendRealArgs(configPath: string, version: string, node: string)
    ensures UpgradeArgs(configPath, version, node, true) == UpgradeArgs(configPath, version, node, false) + ["--dry-run"]
  {
  }

  /**
   * Rehearsal and live runs decide alike: for the same current version the
   * only difference is that a live run proceeds where a rehearsal stops.
   */
  lemma DecisionIndependentOfMode(clean: string, current: string)
    ensures Decide(clean, Ok(current), false) ==
            if Decide(clean, Ok(current), true) == Proceed then DryRun else Decide(clean, Ok(current), true)
  {
  }

  /**
   * A rehearsal whose mock is the version the cluster reports predicts the
   * live decision: it is refused exactly when the live run is refused for a
   * downgrade, and succeeds exactly when the live run is current or proceeds.
   */
  lemma RehearsalPredictsLiveRun(configPath: string, logPath: string, version: string, node: string,
                                 w: KubernetesWorld, current: string)
    requires current != ""
    requires CurrentVersion(configPath, "", node, true, w.members).result == Ok(current)
    ensures var rehearsal := KubernetesUpgradeRun(configPath, logPath, current, version, node, false, w);
      var live := KubernetesUpgradeRun(configPath, logPath, "", version, node, true, w);
      && (rehearsal.err.Some? <==>
          (live.err.Some? && (live.err.value.InvalidVersion? || live.err.value.DowngradeRefused?)))
      && (rehearsal.err.Some? ==> rehearsal.err == live.err)
  {
  }

  /** As written, the default rehearsal version refuses a move to 1.33.10. */
  lemma DefaultRehearsalRefuses1_33_10(configPath: string, logPath: string, node: string, w: KubernetesWorld)
    ensures KubernetesUpgradeRun(configPath, logPath, "", "1.33.10", node, false, w).err
            == Some(DowngradeRefused("1.33.3", "1.33.10"))
  {
    var target, current := "1.33.10", DefaultCurrentVersion;
    assert IsValidVersion(target) && CleanVersion(target) == target && LexLess(target, current) by {
      PatchTenIsADowngradeFromThree();
      DowngradeIsLexicographicGreater(current, target);
      assert target[0] != 'v';
    }
    DowngradeRefusedInBothModes(configPath, logPath, "", target, node, false, w, current);
  }

  /** Target 1.33.2 against a current 1.34.0 is refused as a downgrade in either mode. */
  lemma DowngradeScenario(configPath: string, logPath: string, node: string, execute: bool, w: KubernetesWorld)
    requires execute ==> CurrentVersion(configPath, "", node, true, w.members).result == Ok("1.34.0")
    ensures KubernetesUpgradeRun(configPath, logPath, if execute then "" else "1.34.0", "1.33.2", node, execute, w).err
            == Some(DowngradeRefused("1.34.0", "1.33.2"))
  {
    var target, current := "1.33.2", "1.34.0";
    assert IsValidVersion(target) && CleanVersion(target) == target && LexLess(target, current) by {
      MinorStepBackIsADowngrade();
      DowngradeIsLexicographicGreater(current, target);
      assert target[0] != 'v';
    }
    DowngradeRefusedInBothModes(configPath, logPath, if execute then "" else current, target, node, execute, w, current);
  }

  class KubernetesUpgrader {
    const talosConfigPath: string
    const logPath: string
    var mockCurrentVersion: string

    /** `NewKubernetesUpgrader`: no mock version is set. */
    constructor (talosConfigPath: string, logPath: string)
      ensures this.talosConfigPath == talosConfigPath && this.logPath == logPath
      ensures mockCurrentVersion == ""
    {
      this.talosConfigPath := talosConfigPath;
      this.logPath := logPath;
      mockCurrentVersion := "";
    }

    method SetMockCurrentVersion(version: string)
      modifies this
      ensures mockCurrentVersion == version
    {
      mockCurrentVersion := version;
    }

    method UpgradeToVersion(version: string, controlPlaneNode: string, execute: bool, w: KubernetesWorld)
      returns (err: Option<KubernetesError>, trace: seq<Event>)
      ensures Run(err, trace) ==
              KubernetesUpgradeRun(talosConfigPath, logPath, mockCurrentVersion, version, controlPlaneNode, execute, w)
    {
      if !IsValidVersion(version) {
        return Some(InvalidVersion(version)), [];
      }
      var clean := CleanVersion(version);
      var current := CurrentVersion(talosConfigPath, mockCurrentVersion, controlPlaneNode, execute, w.members);
      trace := current.trace;
      if current.result.Err? {
        if execute {
          return Some(CurrentVersionUnknown(current.result.error)), trace;
        }
      } else {
        if current.result.value == clean {
          return None, trace;
        }
        if IsDowngrade(current.result.value, clean) {
          return Some(DowngradeRefused(current.result.value, clean)), trace;
        }
      }
      if !execute {
        return None, trace;
      }

      var dry := RunUpgradeCommand(talosConfigPath, logPath, clean, controlPlaneNode, true, execute, w.dryRun);
      trace := trace + dry.trace;
      if dry.err.Some? {
        return Some(DryRunFailed(dry.err.value)), trace;
      }
      var actual := RunUpgradeCommand(talosConfigPath, logPath, clean, controlPlaneNode, false, execute, w.upgrade);
      trace := trace + actual.trace;
      if actual.err.Some? {
        return Some(UpgradeFailed(actual.err.value)), trace;
      }
      return None, trace;
    }
  }
}
