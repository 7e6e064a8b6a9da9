/**
 * The operating-system upgrader (`TalosUpgrader` in upgrades/talos.go):
 * validate the target, resolve the current version, skip when current, stop
 * in dry-run mode, otherwise build the installer image from a fresh schematic
 * and upgrade the nodes one after another, stopping at the first failure.
 */
module TalosUpgrades {
  import opened Wrappers
  import opened Text
  import opened Versions
  import opened Cluster

  /** Current version reported when commands are not executed and no mock is set. */
  const DefaultCurrentVersion := "1.10.6"
  /** `NewImageFactoryClient().BaseURL + "/schematics"` */
  const SchematicsUrl := "https://factory.talos.dev/schematics"
  const InstallerRepository := "factory.talos.dev/metal-installer-secureboot/"

  /** Outcome of `talosctl version --short`: failure, or its output after the version regex. */
  datatype VersionReply = QueryFailed | QueryOutput(parsed: Option<string>)

  /** Outcome of the Image Factory POST: no response, or a status and the decoded `id`. */
  datatype SchematicReply = PostFailed | Reply(status: int, decodedId: Option<string>)

  /** Everything the outside world answers during one Talos upgrade. */
  datatype TalosWorld = TalosWorld(
    version: VersionReply,
    manifest: Option<seq<byte>>,
    schematic: SchematicReply,
    nodeRun: nat -> CommandRun)

  datatype QueryError = CommandFailed | Unparsable
  datatype SchematicError = RequestFailed | ApiError(status: int) | DecodeFailed
  datatype NodeFailure = LogFileFailed | UpgradeCommandFailed

  datatype TalosError =
    | InvalidVersion(version: string)
    | CurrentVersionUnknown(cause: QueryError)
    | ManifestFetchFailed
    | SchematicFailed(reason: SchematicError)
    | NodeFailed(node: string, failure: NodeFailure)

  /** Result of a current-version lookup together with the commands it ran. */
  datatype Query = Query(result: Result<string, QueryError>, trace: seq<Event>)

  function VersionQueryArgs(configPath: string): seq<string>
  {
    ["--talosconfig", configPath, "version", "--short"]
  }

  /** `GetCurrentVersion(executeCommands)` of an upgrader whose mock is `mock`. */
  function CurrentVersion(configPath: string, mock: string, execute: bool, reply: VersionReply): Query
  {
    if !execute then
      Query(Ok(if mock != "" then mock else DefaultCurrentVersion), [])
    else
      var issued := [TalosVersionQuery(VersionQueryArgs(configPath))];
      match reply
      case QueryFailed => Query(Err(CommandFailed), issued)
      case QueryOutput(None) => Query(Err(Unparsable), issued)
      case QueryOutput(Some(v)) => Query(Ok(v), issued)
  }

  /** The decision of `UpgradeToVersion` once the target is valid and cleaned. */
  function Decide(clean: string, current: Result<string, QueryError>, execute: bool): Decision<QueryError>
  {
    if current.Err? && execute then CurrentUnknown(current.error)
    else if current.Ok? && current.value == clean then AlreadyCurrent
    else if !execute then DryRun
    else Proceed
  }

  /** `CreateSchematic`: a 200 or 201 response whose body decodes gives the schematic id. */
  function SchematicOutcome(reply: SchematicReply): (r: Result<string, SchematicError>)
    ensures r.Ok? <==> reply.Reply? && (reply.status == 200 || reply.status == 201) && reply.decodedId.Some?
    ensures r.Ok? ==> r.value == reply.decodedId.value
    ensures reply.Reply? && reply.status != 200 && reply.status != 201 ==> r == Err(ApiError(reply.status))
    ensures reply.PostFailed? ==> r == Err(RequestFailed)
  {
    match reply
    case PostFailed => Err(RequestFailed)
    case Reply(status, id) =>
      if status != 200 && status != 201 then Err(ApiError(status))
      else if id.None? then Err(DecodeFailed)
      else Ok(id.value)
  }

  /** `validateSchematic`: warns when a known hash differs, and never fails. */
  function ValidateSchematic(manifest: seq<byte>, expectedHash: string, sha256Hex: seq<byte> -> string):
    (r: (Option<string>, bool))
    ensures r.0 == None
    ensures r.1 <==> expectedHash != "" && sha256Hex(manifest) != expectedHash
  {
    var actual := sha256Hex(manifest);
    (None, expectedHash != "" && actual != expectedHash)
  }

  function InstallerImage(schematicId: string, clean: string): string
  {
    InstallerRepository + schematicId + ":v" + clean
  }

  /** The argument list of `upgradeNode`. */
  function NodeUpgradeArgs(configPath: string, node: string, image: string): seq<string>
  {
    ["--talosconfig", configPath, "upgrade", "--nodes", node, "--image", image, "--preserve"]
  }

  /** `LogPath/talos-upgrade-node-<node with '.' as '-'>-<version>-<timestamp>.log` */
  function NodeLogPath(logPath: string, node: string, version: string, timestamp: string): string
  {
    logPath + "/" + "talos-upgrade-node-" + ReplaceChar(node, '.', '-') + "-" + version + "-" + timestamp + ".log"
  }

  /** `upgradeNode` for one node. */
  function NodeStep(configPath: string, logPath: string, node: string, image: string, version: string,
                    run: CommandRun): Run<NodeFailure>
  {
    if !run.logCreated then Run(Some(LogFileFailed), [])
    else
      var issued := [NodeUpgrade(node, NodeUpgradeArgs(configPath, node, image),
                                 NodeLogPath(logPath, node, version, run.timestamp))];
      Run(if run.exitOk then None else Some(UpgradeCommandFailed), issued)
  }

  /** The node loop from position `i` on: upgrade in order, stop at the first failure. */
  function UpgradeNodesFrom(configPath: string, logPath: string, nodes: seq<string>, image: string,
                            version: string, nodeRun: nat -> CommandRun, i: nat): Run<TalosError>
    requires i <= |nodes|
    decreases |nodes| - i
  {
    if i == |nodes| then Run(None, [])
    else
      var step := NodeStep(configPath, logPath, nodes[i], image, version, nodeRun(i));
      if step.err.Some? then Run(Some(NodeFailed(nodes[i], step.err.value)), step.trace)
      else
        var rest := UpgradeNodesFrom(configPath, logPath, nodes, image, version, nodeRun, i + 1);
        Run(rest.err, step.trace + rest.trace)
  }

  /** Specification of `UpgradeToVersion` for an upgrader with the given fields. */
  function TalosUpgrade(configPath: string, logPath: string, mock: string, version: string,
                        nodes: seq<string>, owner: string, repo: string, execute: bool,
                        w: TalosWorld): Run<TalosError>
  {
    if !IsValidVersion(version) then Run(Some(InvalidVersion(version)), [])
    else
      var clean := CleanVersion(version);
      var q := CurrentVersion(configPath, mock, execute, w.version);
      match Decide(clean, q.result, execute)
      case CurrentUnknown(cause) => Run(Some(CurrentVersionUnknown(cause)), q.trace)
      case AlreadyCurrent => Run(None, q.trace)
      // The decision type is shared with the Kubernetes layer; this layer's `Decide` never refuses a downgrade.
      case DowngradeRejected(_) => assert false; Run(None, q.trace)
      case DryRun => Run(None, q.trace)
      case Proceed => UpgradeWithSchematic(configPath, logPath, clean, nodes, owner, repo, w, q.trace)
  }

  /** The live part of `UpgradeToVersion` after the decision to proceed, following the commands in `queried`. */
  function UpgradeWithSchematic(configPath: string, logPath: string, clean: string, nodes: seq<string>,
                                owner: string, repo: string, w: TalosWorld, queried: seq<Event>): Run<TalosError>
  {
    var fetched := queried + [ManifestFetch(owner, repo)];
    if w.manifest.None? then Run(Some(ManifestFetchFailed), fetched)
    else
      var posted := fetched + [SchematicPost(SchematicsUrl, w.manifest.value)];
      var schematic := SchematicOutcome(w.schematic);
      if schematic.Err? then Run(Some(SchematicFailed(schematic.error)), posted)
      else
        var image := InstallerImage(schematic.value, clean);
        var upgraded := UpgradeNodesFrom(configPath, logPath, nodes, image, clean, w.nodeRun, 0);
        Run(upgraded.err, posted + upgraded.trace)
  }

  /** Node names of the `NodeUpgrade` commands in a trace, in order. */
  function UpgradedNodes(trace: seq<Event>): seq<string>
  {
    if trace == [] then []
    else (if trace[0].NodeUpgrade? then [trace[0].node] else []) + UpgradedNodes(trace[1..])
  }

  lemma {:induction false} UpgradedNodesConcat(a: seq<Event>, b: seq<Event>)
    ensures UpgradedNodes(a + b) == UpgradedNodes(a) + UpgradedNodes(b)
  {
    if a != [] {
      assert (a + b)[1..] == a[1..] + b;
      UpgradedNodesConcat(a[1..], b);
    } else {
      assert a + b == b;
    }
  }

  /**
   * Node `k` is the first node, from position `i` on, whose upgrade fails;
   * the error names it, and exactly the nodes `i..k` (and `k` itself when its
   * transcript could be created) had the upgrade command issued.
   */
  ghost predicate FirstFailureAt(nodes: seq<string>, nodeRun: nat -> CommandRun, i: nat, k: nat,
                                 r: Run<TalosError>)
  {
    && i <= k < |nodes|
    && (forall j :: i <= j < k ==> Succeeds(nodeRun(j)))
    && !Succeeds(nodeRun(k))
    && r.err == Some(NodeFailed(nodes[k], if nodeRun(k).logCreated then UpgradeCommandFailed else LogFileFailed))
    && UpgradedNodes(r.trace) == nodes[i..if nodeRun(k).logCreated then k + 1 else k]
  }

  lemma {:induction false} NoUpgradedNodes(trace: seq<Event>)
    requires forall e :: e in trace ==> !e.NodeUpgrade?
    ensures UpgradedNodes(trace) == []
  {
    if trace != [] {
      assert trace[0] in trace;
      assert forall e :: e in trace[1..] ==> e in trace;
      NoUpgradedNodes(trace[1..]);
    }
  }

  /** Every effect of the node loop is a node upgrade with the argument list of `upgradeNode`. */
  lemma {:induction false} UpgradeNodesFromIssuesNodeUpgrades(configPath: string, logPath: string,
                                                              nodes: seq<string>, image: string, version: string,
                                                              nodeRun: nat -> CommandRun, i: nat)
    requires i <= |nodes|
    ensures forall e :: e in UpgradeNodesFrom(configPath, logPath, nodes, image, version, nodeRun, i).trace ==>
              e.NodeUpgrade? && e.args == NodeUpgradeArgs(configPath, e.node, image)
    decreases |nodes| - i
  {
    if i < |nodes| {
      var step := NodeStep(configPath, logPath, nodes[i], image, version, nodeRun(i));
      if step.err.None? {
        UpgradeNodesFromIssuesNodeUpgrades(configPath, logPath, nodes, image, version, nodeRun, i + 1);
      }
    }
  }

  /** The one-node step issues the upgrade of that node exactly when its transcript could be created. */
  lemma NodeStepUpgrades(configPath: string, logPath: string, node: string, image: string, version: string,
                         run: CommandRun)
    ensures var step := NodeStep(configPath, logPath, node, image, version, run);
      && UpgradedNodes(step.trace) == (if run.logCreated then [node] else [])
      && (step.err.None? <==> Succeeds(run))
      && (step.err.Some? ==> step.err.value == if run.logCreated then UpgradeCommandFailed else LogFileFailed)
  {
  }

  /** A first failure from `i + 1` on, behind a successful node `i`, is the first failure from `i` on. */
  lemma FirstFailureShift(nodes: seq<string>, nodeRun: nat -> CommandRun, i: nat, k: nat,
                          rest: Run<TalosError>, r: Run<TalosError>)
    requires i < |nodes| && Succeeds(nodeRun(i))
    requires FirstFailureAt(nodes, nodeRun, i + 1, k, rest)
    requires r.err == rest.err && UpgradedNodes(r.trace) == [nodes[i]] + UpgradedNodes(rest.trace)
    ensures FirstFailureAt(nodes, nodeRun, i, k, r)
  {
    var m := if nodeRun(k).logCreated then k + 1 else k;
    assert nodes[i..m] == [nodes[i]] + nodes[i + 1..m];
  }

  /** The node loop from `i`: in order, all of `nodes[i..]` on success, nothing past the first failure. */
  lemma {:induction false} UpgradeNodesFromInOrder(configPath: string, logPath: string, nodes: seq<string>,
                                                   image: string, version: string,
                                                   nodeRun: nat -> CommandRun, i: nat)
    requires i <= |nodes|
    ensures var r := UpgradeNodesFrom(configPath, logPath, nodes, image, version, nodeRun, i);
      && (r.err.None? ==> UpgradedNodes(r.trace) == nodes[i..] &&
                          forall j :: i <= j < |nodes| ==> Succeeds(nodeRun(j)))
      && (r.err.Some? ==> exists k :: FirstFailureAt(nodes, nodeRun, i, k, r))
    decreases |nodes| - i
  {
    var r := UpgradeNodesFrom(configPath, logPath, nodes, image, version, nodeRun, i);
    if i < |nodes| {
      var step := NodeStep(configPath, logPath, nodes[i], image, version, nodeRun(i));
      NodeStepUpgrades(configPath, logPath, nodes[i], image, version, nodeRun(i));
      if step.err.Some? {
        assert r == Run(Some(NodeFailed(nodes[i], step.err.value)), step.trace);
        assert nodes[i..i + 1] == [nodes[i]];
        assert FirstFailureAt(nodes, nodeRun, i, i, r);
      } else {
        var rest := UpgradeNodesFrom(configPath, logPath, nodes, image, version, nodeRun, i + 1);
        assert r == Run(rest.err, step.trace + rest.trace);
        UpgradeNodesFromInOrder(configPath, logPath, nodes, image, version, nodeRun, i + 1);
        UpgradedNodesConcat(step.trace, rest.trace);
        if rest.err.None? {
          assert nodes[i..] == [nodes[i]] + nodes[i + 1..];
        } else {
          var k :| FirstFailureAt(nodes, nodeRun, i + 1, k, rest);
          FirstFailureShift(nodes, nodeRun, i, k, rest, r);
        }
      }
    }
  }

  /** An invalid target is rejected before the current version is looked up, with no effect at all. */
  lemma InvalidTargetHasNoEffect(configPath: string, logPath: string, mock: string, version: string,
                                 nodes: seq<string>, owner: string, repo: string, execute: bool, w: TalosWorld)
    requires !IsValidVersion(version)
    ensures TalosUpgrade(configPath, logPath, mock, version, nodes, owner, repo, execute, w)
            == Run(Some(InvalidVersion(version)), [])
  {
  }

  /** Without command execution the lookup never fails and runs nothing: the mock, else 1.10.6. */
  lemma RehearsalCurrentVersion(configPath: string, mock: string, reply: VersionReply)
    ensures CurrentVersion(configPath, mock, false, reply)
            == Query(Ok(if mock != "" then mock else "1.10.6"), [])
  {
  }

  /** With command execution, a failed or unparsable lookup is fatal: nothing but the query happened. */
  lemma LiveLookupFailureIsFatal(configPath: string, logPath: string, mock: string, version: string,
                                 nodes: seq<string>, owner: string, repo: string, w: TalosWorld)
    requires IsValidVersion(version)
    requires w.version.QueryFailed? || w.version.parsed.None?
    ensures var r := TalosUpgrade(configPath, logPath, mock, version, nodes, owner, repo, true, w);
      r.err.Some? && r.err.value.CurrentVersionUnknown? &&
      r.trace == [TalosVersionQuery(VersionQueryArgs(configPath))]
  {
  }

  /** A current version equal to the cleaned target ends the run successfully after the lookup alone. */
  lemma AlreadyCurrentHasNoEffect(configPath: string, logPath: string, mock: string, version: string,
                                  nodes: seq<string>, owner: string, repo: string, execute: bool, w: TalosWorld)
    requires IsValidVersion(version)
    requires CurrentVersion(configPath, mock, execute, w.version).result == Ok(CleanVersion(version))
    ensures var r := TalosUpgrade(configPath, logPath, mock, version, nodes, owner, repo, execute, w);
      r.err.None? && forall e :: e in r.trace ==> e.TalosVersionQuery?
  {
  }

  /** Without command execution a valid target succeeds with no manifest fetch, schematic or node upgrade. */
  lemma RehearsalHasNoEffect(configPath: string, logPath: string, mock: string, version: string,
                             nodes: seq<string>, owner: string, repo: string, w: TalosWorld)
    requires IsValidVersion(version)
    ensures TalosUpgrade(configPath, logPath, mock, version, nodes, owner, repo, false, w) == Run(None, [])
  {
  }

  /** There is no downgrade check on this layer: any other current version leads to an upgrade. */
  lemma NoDowngradeCheck(clean: string, current: string)
    requires current != clean
    ensures Decide(clean, Ok(current), true) == Proceed
  {
  }

  /**
   * Rehearsal and live runs decide alike: for the same current version the
   * only difference is that a live run proceeds where a rehearsal stops.
   */
  lemma DecisionIndependentOfMode(clean: string, current: string)
    ensures Decide(clean, Ok(current), false) ==
            if Decide(clean, Ok(current), true) == Proceed then DryRun else Decide(clean, Ok(current), true)
  {
  }

  /**
   * A node upgrade is only issued after the manifest fetch and the schematic
   * creation both succeeded; it uses the installer image built from the
   * schematic id and the cleaned target.
   */
  lemma NodeUpgradesFollowSchematic(configPath: string, logPath: string, mock: string, version: string,
                                    nodes: seq<string>, owner: string, repo: string, execute: bool,
                                    w: TalosWorld, e: Event)
    requires e in TalosUpgrade(configPath, logPath, mock, version, nodes, owner, repo, execute, w).trace
    requires e.NodeUpgrade?
    ensures execute && IsValidVersion(version) && w.manifest.Some? && SchematicOutcome(w.schematic).Ok?
    ensures var trace := TalosUpgrade(configPath, logPath, mock, version, nodes, owner, repo, execute, w).trace;
      |trace| >= 3 &&
      trace[..3] == [TalosVersionQuery(VersionQueryArgs(configPath)), ManifestFetch(owner, repo),
                     SchematicPost(SchematicsUrl, w.manifest.value)]
    ensures e.args == NodeUpgradeArgs(configPath, e.node,
      "factory.talos.dev/metal-installer-secureboot/" + SchematicOutcome(w.schematic).value + ":v" + CleanVersion(version))
  {
    var r := TalosUpgrade(configPath, logPath, mock, version, nodes, owner, repo, execute, w);
    assert IsValidVersion(version);
    var clean := CleanVersion(version);
    var q := CurrentVersion(configPath, mock, execute, w.version);
    assert Decide(clean, q.result, execute) == Proceed;
    var image := InstallerImage(SchematicOutcome(w.schematic).value, clean);
    var upgraded := UpgradeNodesFrom(configPath, logPath, nodes, image, clean, w.nodeRun, 0);
    UpgradeNodesFromIssuesNodeUpgrades(configPath, logPath, nodes, image, clean, w.nodeRun, 0);
    var posted := [TalosVersionQuery(VersionQueryArgs(configPath)), ManifestFetch(owner, repo),
                   SchematicPost(SchematicsUrl, w.manifest.value)];
    assert r.trace == posted + upgraded.trace;
    assert e !in posted;
  }

  /**
   * A live upgrade that gets past the schematic upgrades the nodes strictly in
   * list order: on success every node, on failure at node `k` the error names
   * node `k` and no node after `k` is attempted.
   */
  lemma NodesUpgradedInListOrder(configPath: string, logPath: string, mock: string, version: string,
                                 nodes: seq<string>, owner: string, repo: string, w: TalosWorld)
    requires IsValidVersion(version)
    requires Decide(CleanVersion(version), CurrentVersion(configPath, mock, true, w.version).result, true) == Proceed
    requires w.manifest.Some? && SchematicOutcome(w.schematic).Ok?
    ensures var r := TalosUpgrade(configPath, logPath, mock, version, nodes, owner, repo, true, w);
      && (r.err.None? ==> UpgradedNodes(r.trace) == nodes && forall j :: 0 <= j < |nodes| ==> Succeeds(w.nodeRun(j)))
      && (r.err.Some? ==> exists k :: FirstFailureAt(nodes, w.nodeRun, 0, k, r))
  {
    var clean := CleanVersion(version);
    var image := InstallerImage(SchematicOutcome(w.schematic).value, clean);
    var upgraded := UpgradeNodesFrom(configPath, logPath, nodes, image, clean, w.nodeRun, 0);
    UpgradeNodesFromInOrder(configPath, logPath, nodes, image, clean, w.nodeRun, 0);
    var posted := [TalosVersionQuery(VersionQueryArgs(configPath)), ManifestFetch(owner, repo),
                   SchematicPost(SchematicsUrl, w.manifest.value)];
    var queried := CurrentVersion(configPath, mock, true, w.version).trace;
    var r := TalosUpgrade(configPath, logPath, mock, version, nodes, owner, repo, true, w);
    assert r == UpgradeWithSchematic(configPath, logPath, clean, nodes, owner, repo, w, queried);
    assert queried + [ManifestFetch(owner, repo)] + [SchematicPost(SchematicsUrl, w.manifest.value)] == posted;
    assert r == Run(upgraded.err, posted + upgraded.trace);
    UpgradedNodesConcat(posted, upgraded.trace);
    NoUpgradedNodes(posted);
    assert nodes[0..] == nodes;
    if r.err.Some? {
      var k :| FirstFailureAt(nodes, w.nodeRun, 0, k, upgraded);
      assert FirstFailureAt(nodes, w.nodeRun, 0, k, r);
    }
  }

  /** Every effect of the operating-system upgrade is one of its own: a query, the fetch, the POST, a node upgrade. */
  lemma TalosUpgradeEffectsAreTalos(configPath: string, logPath: string, mock: string, version: string,
                                    nodes: seq<string>, owner: string, repo: string, execute: bool, w: TalosWorld)
    ensures forall e :: e in TalosUpgrade(configPath, logPath, mock, version, nodes, owner, repo, execute, w).trace ==>
              IsTalosEvent(e)
  {
    if IsValidVersion(version) && execute && w.manifest.Some? && SchematicOutcome(w.schematic).Ok? {
      var clean := CleanVersion(version);
      var image := InstallerImage(SchematicOutcome(w.schematic).value, clean);
      UpgradeNodesFromIssuesNodeUpgrades(configPath, logPath, nodes, image, clean, w.nodeRun, 0);
    }
  }

  /** The installer image names the schematic and the version, so neither can be confused with another. */
  lemma InstallerImageIdentifies(id1: string, id2: string, clean1: string, clean2: string)
    requires |id1| == |id2|
    requires InstallerImage(id1, clean1) == InstallerImage(id2, clean2)
    ensures id1 == id2 && clean1 == clean2
  {
    var n := |InstallerRepository|;
    var a, b := InstallerImage(id1, clean1), InstallerImage(id2, clean2);
    assert a[n..n + |id1|] == id1;
    assert b[n..n + |id2|] == id2;
    assert a[n + |id1| + 2..] == clean1;
    assert b[n + |id2| + 2..] == clean2;
  }

  /** The transcript name holds the node name with every `.` turned into `-` and every other character kept. */
  lemma NodeLogPathShape(logPath: string, node: string, version: string, timestamp: string)
    ensures var n := ReplaceChar(node, '.', '-');
      && |n| == |node| && '.' !in n
      && (forall i :: 0 <= i < |node| && node[i] != '.' ==> n[i] == node[i])
      && (forall i :: 0 <= i < |node| && node[i] == '.' ==> n[i] == '-')
      && NodeLogPath(logPath, node, version, timestamp)
         == logPath + "/talos-upgrade-node-" + n + "-" + version + "-" + timestamp + ".log"
  {
    var n := ReplaceChar(node, '.', '-');
    assert '.' !in n by {
      forall i | 0 <= i < |n| ensures n[i] != '.' {}
    }
    assert logPath + "/" + "talos-upgrade-node-" == logPath + "/talos-upgrade-node-";
  }

  class TalosUpgrader {
    const talosConfigPath: string
    const logPath: string
    var mockCurrentVersion: string

    /** `NewTalosUpgrader`: no mock version is set. */
    constructor (talosConfigPath: string, logPath: string)
      ensures this.talosConfigPath == talosConfigPath && this.logPath == logPath
      ensures mockCurrentVersion == ""
    {
      this.talosConfigPath := talosConfigPath;
      this.logPath := logPath;
      mockCurrentVersion := "";
    }

    method SetMockCurrentVersion(version: string)
      modifies this
      ensures mockCurrentVersion == version
    {
      mockCurrentVersion := version;
    }

    method UpgradeToVersion(version: string, nodes: seq<string>, owner: string, repo: string,
                            execute: bool, w: TalosWorld)
      returns (err: Option<TalosError>, trace: seq<Event>)
      ensures Run(err, trace) ==
              TalosUpgrade(talosConfigPath, logPath, mockCurrentVersion, version, nodes, owner, repo, execute, w)
    {
      if !IsValidVersion(version) {
        return Some(InvalidVersion(version)), [];
      }
      var clean := CleanVersion(version);
      var current := CurrentVersion(talosConfigPath, mockCurrentVersion, execute, w.version);
      trace := current.trace;
      if current.result.Err? {
        if execute {
          return Some(CurrentVersionUnknown(current.result.error)), trace;
        }
      } else if current.result.value == clean {
        return None, trace;
      }
      if !execute {
        return None, trace;
      }
      assert Decide(clean, current.result, execute) == Proceed;
      ghost var spec := UpgradeWithSchematic(talosConfigPath, logPath, clean, nodes, owner, repo, w, trace);
      assert spec == TalosUpgrade(talosConfigPath, logPath, mockCurrentVersion, version, nodes, owner, repo, execute, w);

      trace := trace + [ManifestFetch(owner, repo)];
      if w.manifest.None? {
        return Some(ManifestFetchFailed), trace;
      }
      trace := trace + [SchematicPost(SchematicsUrl, w.manifest.value)];
      var schematic := SchematicOutcome(w.schematic);
      if schematic.Err? {
        return Some(SchematicFailed(schematic.error)), trace;
      }
      var image := InstallerImage(schematic.value, clean);
      var nodeErr, nodeTrace := UpgradeNodes(nodes, image, clean, w.nodeRun);
      return nodeErr, trace + nodeTrace;
    }

    /** The loop over `nodes` in `UpgradeToVersion`: `upgradeNode` for each, stopping at the first failure. */
    method UpgradeNodes(nodes: seq<string>, image: string, clean: string, nodeRun: nat -> CommandRun)
      returns (err: Option<TalosError>, trace: seq<Event>)
      ensures Run(err, trace) == UpgradeNodesFrom(talosConfigPath, logPath, nodes, image, clean, nodeRun, 0)
    {
      trace := [];
      for i := 0 to |nodes|
        invariant UpgradeNodesFrom(talosConfigPath, logPath, nodes, image, clean, nodeRun, 0) ==
                  Run(UpgradeNodesFrom(talosConfigPath, logPath, nodes, image, clean, nodeRun, i).err,
                      trace + UpgradeNodesFrom(talosConfigPath, logPath, nodes, image, clean, nodeRun, i).trace)
      {
        var step := NodeStep(talosConfigPath, logPath, nodes[i], image, clean, nodeRun(i));
        if step.err.Some? {
          return Some(NodeFailed(nodes[i], step.err.value)), trace + step.trace;
        }
        ghost var rest := UpgradeNodesFrom(talosConfigPath, logPath, nodes, image, clean, nodeRun, i + 1);
        assert trace + (step.trace + rest.trace) == (trace + step.trace) + rest.trace;
        trace := trace + step.trace;
      }
      assert trace + [] == trace;
      return None, trace;
    }
  }
}
