/**
 * The webhook service of main.go, as far as it decides anything: its
 * configuration from the environment, the start-up check for required
 * settings, the GitHub signature check, the decision ladder of the webhook
 * handler, the upgrade sequence (operating system first, then Kubernetes),
 * the diagnostics rehearsal with its test overrides, the Bearer-token gate
 * and the readiness summary.
 */
module Service {
  import opened Wrappers
  import opened Text
  import opened Cluster
  import opened Versions
  import opened TalosConfig
  import T = TalosUpgrades
  import K = KubernetesUpgrades

  const DefaultPort := "3847"
  /** The version-tracking file whose modification triggers an upgrade. */
  const TrackedFile := "infrastructure/cluster/track-versions.yaml"
  const MainBranch := "refs/heads/main"
  const SignaturePrefix := "sha256="
  const BearerPrefix := "Bearer "

  const StatusOK := 200
  const StatusBadRequest := 400
  const StatusUnauthorized := 401
  const StatusMethodNotAllowed := 405
  const StatusInternalServerError := 500

  // ---------------------------------------------------------------- configuration

  /** `os.Getenv`, `Header.Get` and `URL.Query().Get`: a missing entry reads as the empty string. */
  function Lookup(m: map<string, string>, key: string): string
  {
    if key in m then m[key] else ""
  }

  /** `getEnvWithDefault`: the variable when it is set and non-empty, otherwise the default. */
  function GetEnvWithDefault(env: map<string, string>, key: string, default: string): (value: string)
    ensures value == Lookup(env, key) || value == default
    ensures value == default <==> Lookup(env, key) == "" || Lookup(env, key) == default
    ensures value == "" <==> default == "" && Lookup(env, key) == ""
  {
    var value := Lookup(env, key);
    if value != "" then value else default
  }

  datatype ServiceConfig = ServiceConfig(
    webhookSecret: string,
    talosConfigPath: string,
    logPath: string,
    gitHubToken: string,
    gitHubOwner: string,
    gitHubRepo: string,
    port: string,
    diagnosticsToken: string)

  /** `loadConfig`: every setting is read from its variable; only the port has a default. */
  function LoadConfig(env: map<string, string>): (cfg: ServiceConfig)
    ensures cfg.port != ""
    ensures cfg.port == (if Lookup(env, "PORT") != "" then Lookup(env, "PORT") else DefaultPort)
    ensures cfg.webhookSecret == Lookup(env, "GITHUB_WEBHOOK_SECRET")
    ensures cfg.talosConfigPath == Lookup(env, "TALOS_CONFIG_PATH")
    ensures cfg.logPath == Lookup(env, "LOG_PATH")
    ensures cfg.gitHubToken == Lookup(env, "GITHUB_TOKEN")
    ensures cfg.gitHubOwner == Lookup(env, "GITHUB_OWNER")
    ensures cfg.gitHubRepo == Lookup(env, "GITHUB_REPO")
    ensures cfg.diagnosticsToken == Lookup(env, "DIAGNOSTICS_TOKEN")
  {
    ServiceConfig(
      webhookSecret := Lookup(env, "GITHUB_WEBHOOK_SECRET"),
      talosConfigPath := Lookup(env, "TALOS_CONFIG_PATH"),
      logPath := Lookup(env, "LOG_PATH"),
      gitHubToken := Lookup(env, "GITHUB_TOKEN"),
      gitHubOwner := Lookup(env, "GITHUB_OWNER"),
      gitHubRepo := Lookup(env, "GITHUB_REPO"),
      port := GetEnvWithDefault(env, "PORT", DefaultPort),
      diagnosticsToken := Lookup(env, "DIAGNOSTICS_TOKEN"))
  }

  /** The settings `main` refuses to start without. */
  datatype Setting =
    | WebhookSecret | GitHubToken | GitHubOwner | GitHubRepo | TalosConfigPath | LogPath | DiagnosticsToken

  function SettingValue(cfg: ServiceConfig, s: Setting): string
  {
    match s
    case WebhookSecret => cfg.webhookSecret
    case GitHubToken => cfg.gitHubToken
    case GitHubOwner => cfg.gitHubOwner
    case GitHubRepo => cfg.gitHubRepo
    case TalosConfigPath => cfg.talosConfigPath
    case LogPath => cfg.logPath
    case DiagnosticsToken => cfg.diagnosticsToken
  }

  /** The order in which `main` checks the required settings. */
  const RequiredSettings: seq<Setting> :=
    [WebhookSecret, GitHubToken, GitHubOwner, GitHubRepo, TalosConfigPath, LogPath, DiagnosticsToken]

  /** Every setting is checked. */
  lemma RequiredSettingsComplete(s: Setting)
    ensures s in RequiredSettings
  {
    match s
    case WebhookSecret => assert RequiredSettings[0] == s;
    case GitHubToken => assert RequiredSettings[1] == s;
    case GitHubOwner => assert RequiredSettings[2] == s;
    case GitHubRepo => assert RequiredSettings[3] == s;
    case TalosConfigPath => assert RequiredSettings[4] == s;
    case LogPath => assert RequiredSettings[5] == s;
    case DiagnosticsToken => assert RequiredSettings[6] == s;
  }

  /** The first empty setting from position `i` of the checking order on. */
  function FirstMissing(cfg: ServiceConfig, i: nat): (r: Option<Setting>)
    requires i <= |RequiredSettings|
    ensures r.None? <==> forall j :: i <= j < |RequiredSettings| ==> SettingValue(cfg, RequiredSettings[j]) != ""
    ensures r.Some? ==> exists k :: && i <= k < |RequiredSettings|
                                    && RequiredSettings[k] == r.value
                                    && SettingValue(cfg, r.value) == ""
                                    && forall j :: i <= j < k ==> SettingValue(cfg, RequiredSettings[j]) != ""
    decreases |RequiredSettings| - i
  {
    if i == |RequiredSettings| then None
    else if SettingValue(cfg, RequiredSettings[i]) == "" then Some(RequiredSettings[i])
    else FirstMissing(cfg, i + 1)
  }

  /**
   * The setting `main` stops on (`log.Fatal`), if any: the first empty one in
   * checking order.  The service starts exactly when none is empty.
   */
  function MissingSetting(cfg: ServiceConfig): (r: Option<Setting>)
    ensures r.None? <==> forall s: Setting :: SettingValue(cfg, s) != ""
    ensures r.Some? ==> SettingValue(cfg, r.value) == ""
    ensures r.Some? ==> exists i :: && 0 <= i < |RequiredSettings|
                                    && RequiredSettings[i] == r.value
                                    && forall j :: 0 <= j < i ==> SettingValue(cfg, RequiredSettings[j]) != ""
  {
    var r := FirstMissing(cfg, 0);
    assert r.None? ==> forall s: Setting :: SettingValue(cfg, s) != "" by {
      if r.None? {
        forall s: Setting ensures SettingValue(cfg, s) != "" {
          RequiredSettingsComplete(s);
        }
      }
    }
    r
  }

  // ---------------------------------------------------------------- signature

  /**
   * `verifyWebhookSignature`.  `hmacHex(secret, payload)` stands for the
   * lower-case hex encoding of HMAC-SHA256 of the payload under the secret.
   */
  function VerifyWebhookSignature(payload: seq<byte>, signature: string, secret: string,
                                  hmacHex: (string, seq<byte>) -> string): (ok: bool)
    ensures !HasPrefix(signature, SignaturePrefix) ==> !ok
    ensures ok <==> signature == SignaturePrefix + hmacHex(secret, payload)
  {
    if !HasPrefix(signature, SignaturePrefix) then false
    else
      var expected := SignaturePrefix + hmacHex(secret, payload);
      signature == expected
  }

  // ---------------------------------------------------------------- upgrade sequence

  /** The two versions recorded in the tracking file of the repository. */
  datatype TrackedVersions = TrackedVersions(talosVersion: string, kubernetesVersion: string)

  /**
   * What the outside world answers during one upgrade run: the versions read
   * from the repository (None: the fetch failed), the parsed talosconfig
   * (None: reading or parsing failed), the order in which each of the two
   * `range` loops over its contexts visits them, and the answers seen by the
   * two upgraders.
   */
  datatype ServiceWorld = ServiceWorld(
    versions: Option<TrackedVersions>,
    talosconfig: Option<Config>,
    nodeOrder: seq<string>,
    endpointOrder: seq<string>,
    talos: T.TalosWorld,
    kubernetes: K.KubernetesWorld)

  /** The iteration orders visit only contexts of the parsed talosconfig. */
  predicate OrdersVisitKeys(w: ServiceWorld)
  {
    w.talosconfig.Some? ==> VisitsKeys(w.talosconfig.value, w.nodeOrder) && VisitsKeys(w.talosconfig.value, w.endpointOrder)
  }

  /** The iteration orders are ones Go may choose: every context exactly once. */
  predicate IterationOrders(w: ServiceWorld)
  {
    w.talosconfig.Some? ==>
      IsIterationOrder(w.talosconfig.value, w.nodeOrder) && IsIterationOrder(w.talosconfig.value, w.endpointOrder)
  }

  datatype UpgradeError =
    | VersionsFetchFailed
    | ConfigParseFailed
    | ClusterNodesMissing
    | ControlPlaneMissing
    | TalosUpgradeFailed(talosCause: T.TalosError)
    | KubernetesUpgradeFailed(kubernetesCause: K.KubernetesError)

  /** What the steps before the upgraders determine: the target versions and the nodes to work on. */
  datatype Targets = Targets(versions: TrackedVersions, nodes: seq<string>, controlPlaneNode: string)

  datatype Preparation = Preparation(targets: Result<Targets, UpgradeError>, trace: seq<Event>)

  /** The steps both upgrade functions share: fetch the versions, parse the talosconfig, pick the nodes. */
  function Prepare(cfg: ServiceConfig, w: ServiceWorld): Preparation
    requires OrdersVisitKeys(w)
  {
    var fetched := [VersionsFetch(cfg.gitHubOwner, cfg.gitHubRepo)];
    if w.versions.None? then Preparation(Err(VersionsFetchFailed), fetched)
    else
      var read := fetched + [ConfigRead(cfg.talosConfigPath)];
      if w.talosconfig.None? then Preparation(Err(ConfigParseFailed), read)
      else
        var nodes := GetAllNodes(w.talosconfig.value, w.nodeOrder);
        if nodes.Err? then Preparation(Err(ClusterNodesMissing), read)
        else
          var controlPlane := GetFirstControlPlaneNode(w.talosconfig.value, w.endpointOrder);
          if controlPlane.Err? then Preparation(Err(ControlPlaneMissing), read)
          else Preparation(Ok(Targets(w.versions.value, nodes.value, controlPlane.value)), read)
  }

  /**
   * Specification of `processUpgrade` (live, no mock versions) and of
   * `processUpgradeWithTestOverrides` (rehearsal, with the selected mocks):
   * the Talos upgrade over all nodes, then, only if it succeeded, the
   * Kubernetes upgrade on the control-plane node.
   */
  function UpgradeProcess(cfg: ServiceConfig, w: ServiceWorld, execute: bool,
                          talosMock: string, kubernetesMock: string): Run<UpgradeError>
    requires OrdersVisitKeys(w)
  {
    var p := Prepare(cfg, w);
    if p.targets.Err? then Run(Some(p.targets.error), p.trace)
    else
      var t := p.targets.value;
      var talos := T.TalosUpgrade(cfg.talosConfigPath, cfg.logPath, talosMock, t.versions.talosVersion,
                                  t.nodes, cfg.gitHubOwner, cfg.gitHubRepo, execute, w.talos);
      if talos.err.Some? then Run(Some(TalosUpgradeFailed(talos.err.value)), p.trace + talos.trace)
      else
        var kubernetes := K.KubernetesUpgradeRun(cfg.talosConfigPath, cfg.logPath, kubernetesMock,
                                                 t.versions.kubernetesVersion, t.controlPlaneNode, execute,
                                                 w.kubernetes);
        Run(if kubernetes.err.Some? then Some(KubernetesUpgradeFailed(kubernetes.err.value)) else None,
            p.trace + talos.trace + kubernetes.trace)
  }

  /** The mock Talos version of the diagnostics rehearsal. */
  function TalosOverride(currentTalos: string, scenario: string): string
  {
    if currentTalos != "" then currentTalos
    else if scenario == "talos-upgrade" || scenario == "both-upgrade" then "1.10.5"
    else ""
  }

  /** The mock Kubernetes version of the diagnostics rehearsal. */
  function KubernetesOverride(currentKubernetes: string, scenario: string): string
  {
    if currentKubernetes != "" then currentKubernetes
    else if scenario == "k8s-upgrade" || scenario == "both-upgrade" then "1.33.2"
    else ""
  }

  /** The steps before the upgraders, as both upgrade functions perform them. */
  method PrepareUpgrade(cfg: ServiceConfig, w: ServiceWorld) returns (targets: Result<Targets, UpgradeError>, trace: seq<Event>)
    requires OrdersVisitKeys(w)
    ensures Preparation(targets, trace) == Prepare(cfg, w)
  {
    trace := [VersionsFetch(cfg.gitHubOwner, cfg.gitHubRepo)];
    if w.versions.None? {
      return Err(VersionsFetchFailed), trace;
    }
    trace := trace + [ConfigRead(cfg.talosConfigPath)];
    if w.talosconfig.None? {
      return Err(ConfigParseFailed), trace;
    }
    var talosConfig := w.talosconfig.value;
    var allNodes := GetAllNodes(talosConfig, w.nodeOrder);
    if allNodes.Err? {
      return Err(ClusterNodesMissing), trace;
    }
    var controlPlaneNode := GetFirstControlPlaneNode(talosConfig, w.endpointOrder);
    if controlPlaneNode.Err? {
      return Err(ControlPlaneMissing), trace;
    }
    return Ok(Targets(w.versions.value, allNodes.value, controlPlaneNode.value)), trace;
  }

  /** `processUpgrade`: both upgraders with command execution and no mock versions. */
  method ProcessUpgrade(cfg: ServiceConfig, w: ServiceWorld) returns (err: Option<UpgradeError>, trace: seq<Event>)
    requires OrdersVisitKeys(w)
    ensures Run(err, trace) == UpgradeProcess(cfg, w, true, "", "")
  {
    var targets;
    targets, trace := PrepareUpgrade(cfg, w);
    if targets.Err? {
      return Some(targets.error), trace;
    }
    var t := targets.value;

    var talosUpgrader := new T.TalosUpgrader(cfg.talosConfigPath, cfg.logPath);
    var talosErr, talosTrace := talosUpgrader.UpgradeToVersion(t.versions.talosVersion, t.nodes,
                                                               cfg.gitHubOwner, cfg.gitHubRepo, true, w.talos);
    trace := trace + talosTrace;
    if talosErr.Some? {
      return Some(TalosUpgradeFailed(talosErr.value)), trace;
    }

    var kubernetesUpgrader := new K.KubernetesUpgrader(cfg.talosConfigPath, cfg.logPath);
    var kubernetesErr, kubernetesTrace := kubernetesUpgrader.UpgradeToVersion(t.versions.kubernetesVersion,
                                                                              t.controlPlaneNode, true, w.kubernetes);
    trace := trace + kubernetesTrace;
    if kubernetesErr.Some? {
      return Some(KubernetesUpgradeFailed(kubernetesErr.value)), trace;
    }
    return None, trace;
  }

  /**
   * `processUpgradeWithTestOverrides`: both upgraders without command
   * execution, each with the mock version an explicit current version or
   * the scenario selects.
   */
  method ProcessUpgradeWithTestOverrides(cfg: ServiceConfig, w: ServiceWorld, currentKubernetes: string,
                                         currentTalos: string, scenario: string)
    returns (err: Option<UpgradeError>, trace: seq<Event>)
    requires OrdersVisitKeys(w)
    ensures Run(err, trace) ==
            UpgradeProcess(cfg, w, false, TalosOverride(currentTalos, scenario),
                           KubernetesOverride(currentKubernetes, scenario))
  {
    var targets;
    targets, trace := PrepareUpgrade(cfg, w);
    if targets.Err? {
      return Some(targets.error), trace;
    }
    var t := targets.value;

    var talosUpgrader := new T.TalosUpgrader(cfg.talosConfigPath, cfg.logPath);
    if currentTalos != "" {
      talosUpgrader.SetMockCurrentVersion(currentTalos);
    } else if scenario == "talos-upgrade" || scenario == "both-upgrade" {
      talosUpgrader.SetMockCurrentVersion("1.10.5");
    }
    var talosErr, talosTrace := talosUpgrader.UpgradeToVersion(t.versions.talosVersion, t.nodes,
                                                               cfg.gitHubOwner, cfg.gitHubRepo, false, w.talos);
    trace := trace + talosTrace;
    if talosErr.Some? {
      return Some(TalosUpgradeFailed(talosErr.value)), trace;
    }

    var kubernetesUpgrader := new K.KubernetesUpgrader(cfg.talosConfigPath, cfg.logPath);
    if currentKubernetes != "" {
      kubernetesUpgrader.SetMockCurrentVersion(currentKubernetes);
    } else if scenario == "k8s-upgrade" || scenario == "both-upgrade" {
      kubernetesUpgrader.SetMockCurrentVersion("1.33.2");
    }
    var kubernetesErr, kubernetesTrace := kubernetesUpgrader.UpgradeToVersion(t.versions.kubernetesVersion,
                                                                              t.controlPlaneNode, false, w.kubernetes);
    trace := trace + kubernetesTrace;
    if kubernetesErr.Some? {
      return Some(KubernetesUpgradeFailed(kubernetesErr.value)), trace;
    }
    return None, trace;
  }

  /** Effects that read the repository or the local talosconfig and touch nothing in the cluster. */
  predicate IsPreparationEvent(e: Event)
  {
    e.VersionsFetch? || e.ConfigRead?
  }

  lemma PrepareReadsOnly(cfg: ServiceConfig, w: ServiceWorld)
    requires OrdersVisitKeys(w)
    ensures forall e :: e in Prepare(cfg, w).trace ==> IsPreparationEvent(e)
    ensures 1 <= |Prepare(cfg, w).trace| <= 2
  {
  }

  /** Three phases whose effects are of three different kinds stay in order when concatenated. */
  lemma PhasesInOrder(a: seq<Event>, b: seq<Event>, c: seq<Event>)
    requires forall e :: e in a ==> IsPreparationEvent(e)
    requires forall e :: e in b ==> IsTalosEvent(e)
    requires forall e :: e in c ==> IsKubernetesEvent(e)
    ensures var s := a + b + c;
      && (forall i, j :: 0 <= i < j < |s| && IsKubernetesEvent(s[i]) ==> !IsTalosEvent(s[j]) && !IsPreparationEvent(s[j]))
      && (forall i, j :: 0 <= i < j < |s| && IsTalosEvent(s[i]) ==> !IsPreparationEvent(s[j]))
  {
    var s := a + b + c;
    forall i | 0 <= i < |a| ensures IsPreparationEvent(s[i]) {
      assert s[i] == a[i] && a[i] in a;
    }
    forall i | |a| <= i < |a| + |b| ensures IsTalosEvent(s[i]) {
      assert s[i] == b[i - |a|] && b[i - |a|] in b;
    }
    forall i | |a| + |b| <= i < |s| ensures IsKubernetesEvent(s[i]) {
      assert s[i] == c[i - |a| - |b|] && c[i - |a| - |b|] in c;
    }
  }

  /**
   * "Must be done first": every operating-system effect precedes every
   * Kubernetes effect, and the repository and talosconfig are read before both.
   */
  lemma TalosBeforeKubernetes(cfg: ServiceConfig, w: ServiceWorld, execute: bool,
                              talosMock: string, kubernetesMock: string)
    requires OrdersVisitKeys(w)
    ensures var s := UpgradeProcess(cfg, w, execute, talosMock, kubernetesMock).trace;
      && (forall i, j :: 0 <= i < j < |s| && IsKubernetesEvent(s[i]) ==> !IsTalosEvent(s[j]) && !IsPreparationEvent(s[j]))
      && (forall i, j :: 0 <= i < j < |s| && IsTalosEvent(s[i]) ==> !IsPreparationEvent(s[j]))
  {
    var p := Prepare(cfg, w);
    PrepareReadsOnly(cfg, w);
    if p.targets.Err? {
      PhasesInOrder(p.trace, [], []);
      assert p.trace + [] + [] == p.trace;
    } else {
      var t := p.targets.value;
      var talos := T.TalosUpgrade(cfg.talosConfigPath, cfg.logPath, talosMock, t.versions.talosVersion,
                                  t.nodes, cfg.gitHubOwner, cfg.gitHubRepo, execute, w.talos);
      T.TalosUpgradeEffectsAreTalos(cfg.talosConfigPath, cfg.logPath, talosMock, t.versions.talosVersion,
                                    t.nodes, cfg.gitHubOwner, cfg.gitHubRepo, execute, w.talos);
      if talos.err.Some? {
        PhasesInOrder(p.trace, talos.trace, []);
        assert p.trace + talos.trace + [] == p.trace + talos.trace;
      } else {
        var kubernetes := K.KubernetesUpgradeRun(cfg.talosConfigPath, cfg.logPath, kubernetesMock,
                                                 t.versions.kubernetesVersion, t.controlPlaneNode, execute,
                                                 w.kubernetes);
        K.KubernetesUpgradeEffectsAreKubernetes(cfg.talosConfigPath, cfg.logPath, kubernetesMock,
                                                t.versions.kubernetesVersion, t.controlPlaneNode, execute,
                                                w.kubernetes);
        PhasesInOrder(p.trace, talos.trace, kubernetes.trace);
      }
    }
  }

  /**
   * The Kubernetes upgrader only runs after a successful Talos upgrade: when
   * the Talos upgrade fails, or the run stops before it, nothing of the
   * Kubernetes layer happens.
   */
  lemma TalosFailureSkipsKubernetes(cfg: ServiceConfig, w: ServiceWorld, execute: bool,
                                    talosMock: string, kubernetesMock: string)
    requires OrdersVisitKeys(w)
    ensures var r := UpgradeProcess(cfg, w, execute, talosMock, kubernetesMock);
      (r.err.Some? && !r.err.value.KubernetesUpgradeFailed?) ==> forall e :: e in r.trace ==> !IsKubernetesEvent(e)
  {
    var r := UpgradeProcess(cfg, w, execute, talosMock, kubernetesMock);
    var p := Prepare(cfg, w);
    PrepareReadsOnly(cfg, w);
    if p.targets.Err? {
      assert r.trace == p.trace;
    } else {
      var t := p.targets.value;
      var talos := T.TalosUpgrade(cfg.talosConfigPath, cfg.logPath, talosMock, t.versions.talosVersion,
                                  t.nodes, cfg.gitHubOwner, cfg.gitHubRepo, execute, w.talos);
      T.TalosUpgradeEffectsAreTalos(cfg.talosConfigPath, cfg.logPath, talosMock, t.versions.talosVersion,
                                    t.nodes, cfg.gitHubOwner, cfg.gitHubRepo, execute, w.talos);
      if talos.err.Some? {
        assert r.trace == p.trace + talos.trace;
        forall e | e in r.trace
          ensures !IsKubernetesEvent(e)
        {
          assert e in p.trace || e in talos.trace;
        }
      } else {
        assert r.err.Some? ==> r.err.value.KubernetesUpgradeFailed?;
      }
    }
  }

  /**
   * After the first steps and a successful Talos upgrade, the run goes on to
   * the Kubernetes upgrade of the tracked version on the control-plane node:
   * its effects are exactly that upgrade's effects, after the earlier ones,
   * and the run succeeds exactly when that upgrade does.
   */
  lemma KubernetesFollowsSuccessfulTalos(cfg: ServiceConfig, w: ServiceWorld, execute: bool,
                                         talosMock: string, kubernetesMock: string)
    requires OrdersVisitKeys(w)
    ensures var p := Prepare(cfg, w);
      p.targets.Ok? ==>
      var t := p.targets.value;
      var talos := T.TalosUpgrade(cfg.talosConfigPath, cfg.logPath, talosMock, t.versions.talosVersion,
                                  t.nodes, cfg.gitHubOwner, cfg.gitHubRepo, execute, w.talos);
      talos.err.None? ==>
      var kubernetes := K.KubernetesUpgradeRun(cfg.talosConfigPath, cfg.logPath, kubernetesMock,
                                               t.versions.kubernetesVersion, t.controlPlaneNode, execute,
                                               w.kubernetes);
      var r := UpgradeProcess(cfg, w, execute, talosMock, kubernetesMock);
      && r.trace == p.trace + talos.trace + kubernetes.trace
      && KubernetesEvents(r.trace) == kubernetes.trace
      && (r.err.None? <==> kubernetes.err.None?)
      && (kubernetes.err.Some? ==> r.err == Some(KubernetesUpgradeFailed(kubernetes.err.value)))
  {
    var p := Prepare(cfg, w);
    if p.targets.Ok? {
      var t := p.targets.value;
      var talos := T.TalosUpgrade(cfg.talosConfigPath, cfg.logPath, talosMock, t.versions.talosVersion,
                                  t.nodes, cfg.gitHubOwner, cfg.gitHubRepo, execute, w.talos);
      if talos.err.None? {
        var kubernetes := K.KubernetesUpgradeRun(cfg.talosConfigPath, cfg.logPath, kubernetesMock,
                                                 t.versions.kubernetesVersion, t.controlPlaneNode, execute,
                                                 w.kubernetes);
        PrepareReadsOnly(cfg, w);
        T.TalosUpgradeEffectsAreTalos(cfg.talosConfigPath, cfg.logPath, talosMock, t.versions.talosVersion,
                                      t.nodes, cfg.gitHubOwner, cfg.gitHubRepo, execute, w.talos);
        K.KubernetesUpgradeEffectsAreKubernetes(cfg.talosConfigPath, cfg.logPath, kubernetesMock,
                                                t.versions.kubernetesVersion, t.controlPlaneNode, execute,
                                                w.kubernetes);
        KubernetesEventsConcat(p.trace + talos.trace, kubernetes.trace);
        KubernetesEventsConcat(p.trace, talos.trace);
        KubernetesEventsOfOtherTrace(p.trace);
        KubernetesEventsOfOtherTrace(talos.trace);
        KubernetesEventsOfKubernetesTrace(kubernetes.trace);
      }
    }
  }

  /**
   * Nothing happens in the cluster until the nodes are known: a failed fetch,
   * an unreadable talosconfig or one without nodes or endpoints stops the run
   * after at most the two reads.
   */
  lemma ClusterUntouchedUntilNodesKnown(cfg: ServiceConfig, w: ServiceWorld, execute: bool,
                                        talosMock: string, kubernetesMock: string)
    requires OrdersVisitKeys(w)
    ensures var r := UpgradeProcess(cfg, w, execute, talosMock, kubernetesMock);
      (r.err.Some? && !r.err.value.TalosUpgradeFailed? && !r.err.value.KubernetesUpgradeFailed?) ==>
        forall e :: e in r.trace ==> IsPreparationEvent(e)
  {
    PrepareReadsOnly(cfg, w);
  }

  /**
   * Missing nodes are reported exactly when the talosconfig was read and no
   * context lists any node, whatever order Go visits the contexts in.
   */
  lemma NodesMissingIffNoContextHasNodes(cfg: ServiceConfig, w: ServiceWorld, execute: bool,
                                         talosMock: string, kubernetesMock: string)
    requires IterationOrders(w)
    ensures UpgradeProcess(cfg, w, execute, talosMock, kubernetesMock).err == Some(ClusterNodesMissing) <==>
      && w.versions.Some? && w.talosconfig.Some?
      && forall k :: k in w.talosconfig.value.contexts ==> w.talosconfig.value.contexts[k].nodes == []
  {
    if w.versions.Some? && w.talosconfig.Some? {
      NodesFromSomeContext(w.talosconfig.value, w.nodeOrder);
    }
  }

  /**
   * The diagnostics rehearsal runs no command and sends nothing to the
   * cluster or the Image Factory: it only reads the repository and the
   * local talosconfig.
   */
  lemma RehearsalTouchesNoCluster(cfg: ServiceConfig, w: ServiceWorld, talosMock: string, kubernetesMock: string)
    requires OrdersVisitKeys(w)
    ensures forall e :: e in UpgradeProcess(cfg, w, false, talosMock, kubernetesMock).trace ==> IsPreparationEvent(e)
  {
    var p := Prepare(cfg, w);
    PrepareReadsOnly(cfg, w);
    if p.targets.Ok? {
      var t := p.targets.value;
      if IsValidVersion(t.versions.talosVersion) {
        T.RehearsalHasNoEffect(cfg.talosConfigPath, cfg.logPath, talosMock, t.versions.talosVersion,
                               t.nodes, cfg.gitHubOwner, cfg.gitHubRepo, w.talos);
      }
      K.RehearsalHasNoEffect(cfg.talosConfigPath, cfg.logPath, kubernetesMock, t.versions.kubernetesVersion,
                             t.controlPlaneNode, w.kubernetes);
    }
  }

  /**
   * The override selection as the rehearsing upgraders see it: an explicit
   * current version wins; otherwise the scenario picks 1.10.5 for Talos
   * (`talos-upgrade`, `both-upgrade`) and 1.33.2 for Kubernetes
   * (`k8s-upgrade`, `both-upgrade`); otherwise the upgraders' own defaults.
   */
  lemma RehearsalVersions(configPath: string, node: string, currentKubernetes: string, currentTalos: string,
                          scenario: string, talosReply: T.VersionReply, membersReply: K.MembersReply)
    ensures T.CurrentVersion(configPath, TalosOverride(currentTalos, scenario), false, talosReply).result ==
      Ok(if currentTalos != "" then currentTalos
         else if scenario == "talos-upgrade" || scenario == "both-upgrade" then "1.10.5"
         else T.DefaultCurrentVersion)
    ensures K.CurrentVersion(configPath, KubernetesOverride(currentKubernetes, scenario), node, false, membersReply).result ==
      Ok(if currentKubernetes != "" then currentKubernetes
         else if scenario == "k8s-upgrade" || scenario == "both-upgrade" then "1.33.2"
         else K.DefaultCurrentVersion)
  {
  }

  // ---------------------------------------------------------------- webhook

  datatype Commit = Commit(modified: seq<string>)

  /** The fields of a GitHub push event the handler looks at. */
  datatype PushEvent = PushEvent(ref: string, commits: seq<Commit>)

  /**
   * A request to `/webhook`: its HTTP method, its body (None: reading it failed)
   * and its `X-Hub-Signature-256` header (empty when absent).
   */
  datatype WebhookRequest = WebhookRequest(verb: string, body: Option<seq<byte>>, signature: string)

  /** The status the handler answers with, and what it caused. */
  datatype Response = Response(status: int, trace: seq<Event>)

  /** Some commit of the push lists the tracking file among its modified files. */
  predicate ModifiesTrackedFile(commits: seq<Commit>)
  {
    exists c :: c in commits && TrackedFile in c.modified
  }

  /**
   * Specification of `handleWebhook`; `decode` stands for the JSON decoding
   * of the payload (None: not a push event).
   */
  function WebhookResponse(req: WebhookRequest, cfg: ServiceConfig, hmacHex: (string, seq<byte>) -> string,
                           decode: seq<byte> -> Option<PushEvent>, w: ServiceWorld): Response
    requires OrdersVisitKeys(w)
  {
    if req.verb != "POST" then Response(StatusMethodNotAllowed, [])
    else if req.body.None? then Response(StatusBadRequest, [])
    else if !VerifyWebhookSignature(req.body.value, req.signature, cfg.webhookSecret, hmacHex) then
      Response(StatusUnauthorized, [])
    else if decode(req.body.value).None? then Response(StatusBadRequest, [])
    else if decode(req.body.value).value.ref != MainBranch then Response(StatusOK, [])
    else if !ModifiesTrackedFile(decode(req.body.value).value.commits) then Response(StatusOK, [])
    else
      var r := UpgradeProcess(cfg, w, true, "", "");
      Response(if r.err.Some? then StatusInternalServerError else StatusOK, r.trace)
  }

  /** The nested search of `handleWebhook` for the tracking file, stopping at the first hit. */
  method TrackVersionsModified(commits: seq<Commit>) returns (modified: bool)
    ensures modified <==> ModifiesTrackedFile(commits)
  {
    modified := false;
    var i := 0;
    while i < |commits| && !modified
      invariant 0 <= i <= |commits|
      invariant modified <==> exists c :: c in commits[..i] && TrackedFile in c.modified
    {
      var files := commits[i].modified;
      var j := 0;
      while j < |files|
        invariant 0 <= j <= |files|
        invariant !modified && TrackedFile !in files[..j]
      {
        if files[j] == TrackedFile {
          modified := true;
          break;
        }
        j := j + 1;
      }
      assert modified <==> TrackedFile in files by {
        if !modified {
          assert files[..j] == files;
        }
      }
      assert commits[..i + 1] == commits[..i] + [commits[i]];
      i := i + 1;
    }
    if !modified {
      assert commits[..i] == commits;
    }
  }

  /** `handleWebhook`. */
  method HandleWebhook(req: WebhookRequest, cfg: ServiceConfig, hmacHex: (string, seq<byte>) -> string,
                       decode: seq<byte> -> Option<PushEvent>, w: ServiceWorld)
    returns (status: int, trace: seq<Event>)
    requires OrdersVisitKeys(w)
    ensures Response(status, trace) == WebhookResponse(req, cfg, hmacHex, decode, w)
  {
    trace := [];
    if req.verb != "POST" {
      return StatusMethodNotAllowed, trace;
    }
    if req.body.None? {
      return StatusBadRequest, trace;
    }
    var payload := req.body.value;
    if !VerifyWebhookSignature(payload, req.signature, cfg.webhookSecret, hmacHex) {
      return StatusUnauthorized, trace;
    }
    var webhook := decode(payload);
    if webhook.None? {
      return StatusBadRequest, trace;
    }
    if webhook.value.ref != MainBranch {
      return StatusOK, trace;
    }
    var trackVersionsModified := TrackVersionsModified(webhook.value.commits);
    if !trackVersionsModified {
      return StatusOK, trace;
    }
    var err;
    err, trace := ProcessUpgrade(cfg, w);
    if err.Some? {
      return StatusInternalServerError, trace;
    }
    return StatusOK, trace;
  }

  /** Only POST is accepted; anything else is refused with 405 before the body is read. */
  lemma WebhookRejectsOtherMethods(req: WebhookRequest, cfg: ServiceConfig, hmacHex: (string, seq<byte>) -> string,
                                   decode: seq<byte> -> Option<PushEvent>, w: ServiceWorld)
    requires OrdersVisitKeys(w)
    requires req.verb != "POST"
    ensures WebhookResponse(req, cfg, hmacHex, decode, w) == Response(StatusMethodNotAllowed, [])
  {
  }

  /**
   * A bad signature is answered with 401, whatever the payload would decode
   * to: the signature is checked before the payload is parsed.
   */
  lemma WebhookAuthenticatesBeforeParsing(req: WebhookRequest, cfg: ServiceConfig,
                                          hmacHex: (string, seq<byte>) -> string,
                                          decode: seq<byte> -> Option<PushEvent>, w: ServiceWorld)
    requires OrdersVisitKeys(w)
    requires req.verb == "POST" && req.body.Some?
    requires req.signature != SignaturePrefix + hmacHex(cfg.webhookSecret, req.body.value)
    ensures WebhookResponse(req, cfg, hmacHex, decode, w) == Response(StatusUnauthorized, [])
  {
  }

  /**
   * Anything happening at all requires an authentic push to the main branch
   * that modified the tracking file.
   */
  lemma UpgradeOnlyForAuthenticTrackedPush(req: WebhookRequest, cfg: ServiceConfig,
                                           hmacHex: (string, seq<byte>) -> string,
                                           decode: seq<byte> -> Option<PushEvent>, w: ServiceWorld)
    requires OrdersVisitKeys(w)
    ensures WebhookResponse(req, cfg, hmacHex, decode, w).trace != [] ==>
      && req.verb == "POST" && req.body.Some?
      && req.signature == SignaturePrefix + hmacHex(cfg.webhookSecret, req.body.value)
      && decode(req.body.value).Some?
      && decode(req.body.value).value.ref == MainBranch
      && ModifiesTrackedFile(decode(req.body.value).value.commits)
  {
  }

  /**
   * For an authentic push to the main branch: the live upgrade runs exactly
   * when some commit modified the tracking file, and the answer is 500
   * exactly when that upgrade failed, 200 otherwise.  A push to any other
   * branch is acknowledged with 200 and nothing else.
   */
  lemma WebhookDispatchesIffTracked(req: WebhookRequest, cfg: ServiceConfig,
                                    hmacHex: (string, seq<byte>) -> string,
                                    decode: seq<byte> -> Option<PushEvent>, w: ServiceWorld)
    requires OrdersVisitKeys(w)
    requires req.verb == "POST" && req.body.Some?
    requires req.signature == SignaturePrefix + hmacHex(cfg.webhookSecret, req.body.value)
    requires decode(req.body.value).Some?
    ensures var push := decode(req.body.value).value;
      var resp := WebhookResponse(req, cfg, hmacHex, decode, w);
      var upgrade := UpgradeProcess(cfg, w, true, "", "");
      && (push.ref != MainBranch ==> resp == Response(StatusOK, []))
      && (push.ref == MainBranch ==>
            && (resp.trace != [] <==> ModifiesTrackedFile(push.commits))
            && (ModifiesTrackedFile(push.commits) ==> resp.trace == upgrade.trace)
            && (resp.status == StatusInternalServerError <==> ModifiesTrackedFile(push.commits) && upgrade.err.Some?)
            && (resp.status == StatusOK || resp.status == StatusInternalServerError))
  {
    PrepareReadsOnly(cfg, w);
    var p := Prepare(cfg, w);
    var upgrade := UpgradeProcess(cfg, w, true, "", "");
    assert |upgrade.trace| >= |p.trace|;
  }

  // ---------------------------------------------------------------- diagnostics

  /**
   * The gate of `diagnosticsEndpoint`: None lets the request through,
   * otherwise the status it is refused with.
   */
  function DiagnosticsAccess(verb: string, authorization: string, token: string): (r: Option<int>)
    ensures r.None? <==> verb == "GET" && authorization == BearerPrefix + token
    ensures r.Some? ==> r.value == if verb != "GET" then StatusMethodNotAllowed else StatusUnauthorized
  {
    if verb != "GET" then Some(StatusMethodNotAllowed)
    else if authorization == "" then Some(StatusUnauthorized)
    else if !HasPrefix(authorization, BearerPrefix) then Some(StatusUnauthorized)
    else if TrimPrefix(authorization, BearerPrefix) != token then Some(StatusUnauthorized)
    else None
  }

  /** A service that started has a non-empty token, so a bare or missing Bearer header never gets in. */
  lemma StartedServiceNeedsToken(cfg: ServiceConfig, authorization: string)
    requires MissingSetting(cfg).None?
    requires authorization == "" || authorization == BearerPrefix
    ensures DiagnosticsAccess("GET", authorization, cfg.diagnosticsToken) == Some(StatusUnauthorized)
  {
    assert SettingValue(cfg, DiagnosticsToken) != "";
  }

  /** The result entries `checkAllTestsPass` consults, in its order. */
  const TestKeys: seq<string> :=
    ["github_api", "talos_config", "bare_metal_config", "image_factory", "cluster_versions",
     "k8s_upgrade_test", "talos_upgrade_test"]

  /** The entry is present, is an object, has a `status`, and that status is not the string "success". */
  predicate ReportsFailure(results: map<string, Json>, key: string)
  {
    key in results && results[key].JObject? && "status" in results[key].fields &&
    results[key].fields["status"] != JString("success")
  }

  /** The readiness rule: no consulted entry reports a failure. */
  predicate AllTestsPass(results: map<string, Json>)
  {
    forall key :: key in TestKeys ==> !ReportsFailure(results, key)
  }

  /** `checkAllTestsPass` */
  method CheckAllTestsPass(results: map<string, Json>) returns (ready: bool)
    ensures ready == AllTestsPass(results)
  {
    for i := 0 to |TestKeys|
      invariant forall j :: 0 <= j < i ==> !ReportsFailure(results, TestKeys[j])
    {
      var test := TestKeys[i];
      if test in results {
        var testResult := results[test];
        if testResult.JObject? {
          if "status" in testResult.fields {
            if testResult.fields["status"] != JString("success") {
              assert ReportsFailure(results, TestKeys[i]);
              return false;
            }
          }
        }
      }
    }
    return true;
  }

  /**
   * Only the seven consulted entries decide readiness: in particular the
   * rehearsal's own `upgrade_test` entry never does, whatever it holds.
   */
  lemma ReadinessIgnoresOtherEntries(results: map<string, Json>, key: string, value: Json)
    requires key !in TestKeys
    ensures AllTestsPass(results[key := value]) == AllTestsPass(results)
  {
    forall k | k in TestKeys ensures ReportsFailure(results[key := value], k) == ReportsFailure(results, k) {
      assert k != key;
    }
  }

  lemma UpgradeTestNotConsulted()
    ensures "upgrade_test" !in TestKeys
  {
    assert |"upgrade_test"| == 12;
    forall i | 0 <= i < |TestKeys| ensures TestKeys[i] != "upgrade_test" {
      assert |TestKeys[i]| != 12 || TestKeys[i][0] != 'u';
    }
  }
}
