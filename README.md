# talos-automation upgrade engine, modelled in Dafny

This project models the upgrade service in `tools/talos-automation` of the
home-gitops repository. A GitHub webhook reports a push that changed the
version-tracking file. The service then reads the target versions from the
repository and the cluster nodes from the local talosconfig. It upgrades the
Talos operating system node by node, and only then upgrades Kubernetes through
the control-plane node. A diagnostics endpoint behind a Bearer token rehearses
the same upgrade sequence without executing its commands, optionally with
mocked current versions. Beside that rehearsal, the endpoint runs its own live
probes (`talosctl` version queries and an Image Factory request); those probes
are left out, as listed below.

How the model is built:

- **The outside world is an oracle.** Every outside answer is a value passed
  in: the output of `talosctl` runs, Image Factory responses, the repository
  fetch, the parsed talosconfig.
- **Every effect is an event.** The engine's effects become `Cluster.Event`s
  in a trace that each operation returns. Examples: a `talosctl` command, an
  HTTP request, a transcript file.
- **"Nothing happens" is a statement about the trace.** "No command was
  issued" and "the Kubernetes layer was never touched" are stated over that
  trace.

Modules:

- `Text`: prefixes, the `.`→`-` node-name rewrite, and `strings.Compare` as
  lexicographic order.
- `Versions`: the version pattern `^v?\d+\.\d+\.\d+$`, removal of one leading
  `v`, and the downgrade test.
- `Cluster`: events, command outcomes, decoded JSON.
- `TalosUpgrades`, from `upgrades/talos.go`: a `TalosUpgrader` class whose
  `UpgradeToVersion` method is proved equal to the specification function
  `TalosUpgrade`. Lemmas about `TalosUpgrade` carry the guarantees:
  - an invalid target has no effect;
  - an already-current cluster is left alone;
  - a rehearsal has no effect;
  - the schematic is built before any node is touched;
  - nodes are upgraded in list order and the loop stops at the first failure.
- `KubernetesUpgrades`, from `upgrades/kubernetes.go`: the same shape, plus:
  - the downgrade refusal in both modes;
  - a dry run that must succeed before the `upgrade-k8s` command.
- `TalosConfig`, from `internal/talos/config.go`: the control-plane endpoint
  and node-list getters.
  - Go visits map entries in an unspecified order, so each getter takes that
    order explicitly.
  - The lemmas hold for every order that lists each context exactly once.
- `Service`, from `main.go`, covering:
  - configuration loading and the start-up check;
  - the webhook signature and the webhook decision ladder;
  - the shared upgrade sequence (`UpgradeProcess`) behind `processUpgrade` and
    `processUpgradeWithTestOverrides`;
  - the selection of test overrides;
  - the Bearer-token gate and the readiness rule `checkAllTestsPass`.

Points of the code worth knowing:

- The downgrade check is the plain `strings.Compare` that
  `upgrades/kubernetes.go:196` itself calls a simplification, so it orders
  versions lexicographically, not numerically.
  - So 1.9.0 → 1.10.0 is refused.
  - So is a rehearsal from the default 1.33.3 to 1.33.10.
  - The lemmas `Versions.MinorTenIsADowngradeFromNine` and
    `KubernetesUpgrades.DefaultRehearsalRefuses1_33_10` show both.
- The Talos layer has no downgrade check at all.
- The current Kubernetes version comes only from
  `talosctl get members -o json` (`upgrades/kubernetes.go:159`).
- The current Talos version is taken from the `Client:` line of
  `talosctl version --short` (`upgrades/talos.go:231`), which is the version of
  `talosctl` itself, not that of the nodes. The model receives that parsed
  value as an oracle, so it cannot tell the two apart.
- The dry run and the actual `upgrade-k8s` command name their transcript from
  the version and the current second only. When both start within the same
  second, the second `os.Create` truncates the first transcript
  (`KubernetesUpgrades.TranscriptsShareNameWithinOneSecond`).

## Model

| member | source | states |
|---|---|---|
| Text.TrimPrefix | tools/talos-automation/upgrades/talos.go:68 | the prefix and the result make up the input exactly when the input starts with the prefix; otherwise the input is returned unchanged |
| Text.ReplaceChar | tools/talos-automation/upgrades/talos.go:151 | the result has the same length as the input; each occurrence of the character is replaced and every other character is kept |
| Text.CompareIsLexicographic | tools/talos-automation/upgrades/kubernetes.go:195-198 | `strings.Compare` is 0 exactly for equal strings, negative exactly when the first string is lexicographically below the second, and positive exactly when it is above |
| Text.Compare | tools/talos-automation/upgrades/kubernetes.go:197 | `strings.Compare`: compares character by character and answers -1, 0 or +1; its meaning is stated by `CompareIsLexicographic` |
| Text.LexLessTrichotomy | tools/talos-automation/upgrades/kubernetes.go:195-198 | lexicographic order is irreflexive, asymmetric and total on strings |
| Text.LexLessTransitive | tools/talos-automation/upgrades/kubernetes.go:195-198 | lexicographic order is transitive, so with `LexLessTrichotomy` it is a strict total order |
| Versions.IsValidVersion | tools/talos-automation/upgrades/talos.go:196-200 | `isValidVersion` (the same in both upgraders): after one optional leading `v`, three digit runs separated by single dots and nothing else; `ValidVersionMatchesPattern` ties it to the pattern |
| Versions.IsDowngrade | tools/talos-automation/upgrades/kubernetes.go:195-198 | `isDowngrade`: `strings.Compare(current, target) > 0`; `DowngradeIsLexicographicGreater` gives its meaning |
| Versions.ValidVersionMatchesPattern | tools/talos-automation/upgrades/talos.go:196-200 | `isValidVersion` accepts exactly the strings of the form optional `v`, then three non-empty digit runs joined by dots |
| Versions.CleanVersionOfValid | tools/talos-automation/upgrades/kubernetes.go:41-42 | for a valid version, the cleaned version is the target minus at most one `v`; it is itself three dotted numbers and has no `v` left |
| Versions.DowngradeIsLexicographicGreater | tools/talos-automation/upgrades/kubernetes.go:195-198 | `isDowngrade(current, target)` holds exactly when the target is lexicographically below the current version; it is irreflexive and asymmetric |
| Versions.MinorTenIsADowngradeFromNine | tools/talos-automation/upgrades/kubernetes.go:195-198 | both versions are valid, and a move from 1.9.0 to 1.10.0 counts as a downgrade |
| Versions.PatchTenIsADowngradeFromThree | tools/talos-automation/upgrades/kubernetes.go:195-198 | 1.33.10 is valid and counts as a downgrade from 1.33.3 |
| Versions.MinorStepBackIsADowngrade | tools/talos-automation/upgrades/kubernetes.go:195-198 | 1.33.2 is valid and counts as a downgrade from 1.34.0 |
| TalosUpgrades.CurrentVersion | tools/talos-automation/upgrades/talos.go:208-238 | `GetCurrentVersion`: without execution the mock or 1.10.6 and no command; with execution one `talosctl version --short` query, failing when it fails or its output does not parse |
| TalosUpgrades.TalosUpgrade | tools/talos-automation/upgrades/talos.go:52-136 | the specification of `UpgradeToVersion`: validate, look up the current version, stop when current or rehearsing, otherwise continue with `UpgradeWithSchematic` |
| TalosUpgrades.UpgradeWithSchematic | tools/talos-automation/upgrades/talos.go:101-136 | the live part: fetch the manifest, create the schematic, build the installer image, then the node loop; each failure stops the run with its own error |
| TalosUpgrades.InstallerImage | tools/talos-automation/upgrades/talos.go:120 | `factory.talos.dev/metal-installer-secureboot/<schematic id>:v<clean version>` |
| TalosUpgrades.NodeStep | tools/talos-automation/upgrades/talos.go:138-172 | `upgradeNode`: fails without effect when the transcript cannot be created; otherwise issues the node's upgrade command and fails when it fails |
| TalosUpgrades.SchematicOutcome | tools/talos-automation/upgrades/talos.go:174-194 | schematic creation succeeds exactly on a 200 or 201 response whose body decodes, and yields the decoded id; a failed POST and any other status are reported as their own errors |
| TalosUpgrades.ValidateSchematic | tools/talos-automation/upgrades/talos.go:247-259 | never returns an error; warns exactly when an expected hash is given and differs from the SHA-256 of the manifest |
| TalosUpgrades.InvalidTargetHasNoEffect | tools/talos-automation/upgrades/talos.go:61-64 | an invalid target fails with the invalid-version error before the current version is queried, and has no effect at all |
| TalosUpgrades.RehearsalCurrentVersion | tools/talos-automation/upgrades/talos.go:208-219 | without command execution, the current version is the mock when one is set, otherwise 1.10.6; no command runs |
| TalosUpgrades.LiveLookupFailureIsFatal | tools/talos-automation/upgrades/talos.go:73-79 | in live mode, a failed or unparsable `talosctl version` stops the upgrade with an error; the query is its only effect |
| TalosUpgrades.AlreadyCurrentHasNoEffect | tools/talos-automation/upgrades/talos.go:86-90 | a current version equal to the cleaned target succeeds with no effect beyond the version query |
| TalosUpgrades.RehearsalHasNoEffect | tools/talos-automation/upgrades/talos.go:95-99 | without command execution, a valid target succeeds with an empty trace: no manifest fetch, no schematic, no node upgrade |
| TalosUpgrades.NoDowngradeCheck | tools/talos-automation/upgrades/talos.go:81-93 | on this layer, any current version other than the target leads to an upgrade |
| TalosUpgrades.DecisionIndependentOfMode | tools/talos-automation/upgrades/talos.go:73-99 | for a known current version, a rehearsal decides exactly as a live run, except that it stops where a live run would proceed |
| TalosUpgrades.NodeUpgradesFollowSchematic | tools/talos-automation/upgrades/talos.go:103-120 | a node upgrade happens only in live mode after a successful manifest fetch and schematic creation; the trace starts with the query, the fetch and the POST of the manifest; every node command uses the installer image built from the schematic id and the cleaned version |
| TalosUpgrades.NodesUpgradedInListOrder | tools/talos-automation/upgrades/talos.go:123-132 | on success every node was upgraded, in list order; on failure at node k, the error names node k, nodes before k succeeded, and no node after k was attempted |
| TalosUpgrades.UpgradeNodesFromInOrder | tools/talos-automation/upgrades/talos.go:123-132 | the node loop from any position upgrades the remaining nodes in order and stops at the first failure, naming it |
| TalosUpgrades.UpgradeNodesFromIssuesNodeUpgrades | tools/talos-automation/upgrades/talos.go:138-146 | every effect of the node loop is a node upgrade with the argument list `--talosconfig P upgrade --nodes N --image I --preserve` |
| TalosUpgrades.NodeStepUpgrades | tools/talos-automation/upgrades/talos.go:138-172 | one node's upgrade command is issued exactly when its transcript could be created; the step fails exactly when the transcript or the command fails, and the error says which |
| TalosUpgrades.TalosUpgradeEffectsAreTalos | tools/talos-automation/upgrades/talos.go:52-136 | every effect of the Talos upgrade is a version query, the manifest fetch, the schematic POST or a node upgrade |
| TalosUpgrades.InstallerImageIdentifies | tools/talos-automation/upgrades/talos.go:118-119 | for schematic ids of equal length, equal installer images mean equal ids and equal versions |
| TalosUpgrades.NodeLogPathShape | tools/talos-automation/upgrades/talos.go:149-151 | the transcript is `LogPath/talos-upgrade-node-<n>-<version>-<timestamp>.log`, where `n` is the node name with each `.` replaced by `-` and every other character kept, so it contains no `.` |
| TalosUpgrades.TalosUpgrader.constructor | tools/talos-automation/upgrades/talos.go:38-44 | the new upgrader keeps the config path and log path, with no mock version |
| TalosUpgrades.TalosUpgrader.SetMockCurrentVersion | tools/talos-automation/upgrades/talos.go:240-244 | sets the mock version |
| TalosUpgrades.TalosUpgrader.UpgradeToVersion | tools/talos-automation/upgrades/talos.go:52-136 | the error and effects are exactly those of `TalosUpgrade` for the upgrader's fields |
| TalosUpgrades.TalosUpgrader.UpgradeNodes | tools/talos-automation/upgrades/talos.go:123-132 | the node loop's error and effects are exactly those of `UpgradeNodesFrom` from the first node, checked with a loop invariant |
| KubernetesUpgrades.MembersVersion | tools/talos-automation/upgrades/kubernetes.go:172-186 | the first member's `spec.kubernetesVersion` with one leading `v` removed; an error for an empty list or a missing or non-string field |
| KubernetesUpgrades.CurrentVersion | tools/talos-automation/upgrades/kubernetes.go:144-187 | `GetCurrentVersion`: without execution the mock or 1.33.3 and no command; with execution one members query, failing when it fails or does not decode, otherwise `MembersVersion` |
| KubernetesUpgrades.RunUpgradeCommand | tools/talos-automation/upgrades/kubernetes.go:100-142 | `runUpgradeCommand`: create the transcript, then run the `upgrade-k8s` command only with execution; its outcome is stated by `RunUpgradeCommandOutcome` |
| KubernetesUpgrades.TranscriptsShareNameWithinOneSecond | tools/talos-automation/upgrades/kubernetes.go:115-119 | the dry run and the actual command started within one second write to the same transcript path |
| KubernetesUpgrades.KubernetesUpgradeRun | tools/talos-automation/upgrades/kubernetes.go:27-98 | the specification of `UpgradeToVersion`: validate, look up the current version, stop when current, refuse a downgrade, stop when rehearsing, otherwise the dry run and then the actual command |
| KubernetesUpgrades.UpgradeArgs | tools/talos-automation/upgrades/kubernetes.go:101-110 | the command is `--talosconfig P upgrade-k8s --to V -n N`, with `--dry-run` appended exactly in dry-run mode |
| KubernetesUpgrades.DryRunArgsExtendRealArgs | tools/talos-automation/upgrades/kubernetes.go:101-110 | the dry-run arguments are the real arguments plus `--dry-run` |
| KubernetesUpgrades.RunUpgradeCommandOutcome | tools/talos-automation/upgrades/kubernetes.go:100-142 | the command step fails exactly when the transcript cannot be created, or when an executed command fails; without execution it only creates the transcript, and with execution it runs exactly the `upgrade-k8s` command |
| KubernetesUpgrades.InvalidTargetHasNoEffect | tools/talos-automation/upgrades/kubernetes.go:35-38 | an invalid target fails before any lookup, with no effect at all |
| KubernetesUpgrades.RehearsalCurrentVersion | tools/talos-automation/upgrades/kubernetes.go:147-155 | without command execution, the current version is the mock when one is set, otherwise 1.33.3; nothing runs |
| KubernetesUpgrades.MembersVersionOfFirstMember | tools/talos-automation/upgrades/kubernetes.go:172-186 | an empty member list is an error; otherwise success means the first member has a string `spec.kubernetesVersion`; the result is that string without its leading `v` when it has one, and the string itself otherwise |
| KubernetesUpgrades.MembersVersionIgnoresLaterMembers | tools/talos-automation/upgrades/kubernetes.go:176-177 | only the first member is consulted |
| KubernetesUpgrades.AlreadyCurrentHasNoEffect | tools/talos-automation/upgrades/kubernetes.go:61-64 | a current version equal to the cleaned target succeeds with no command beyond the members query |
| KubernetesUpgrades.DowngradeRefusedInBothModes | tools/talos-automation/upgrades/kubernetes.go:66-70 | if the target is lexicographically below the current version, the upgrade is refused with both versions named, in either mode, and no upgrade command is issued |
| KubernetesUpgrades.RehearsalHasNoEffect | tools/talos-automation/upgrades/kubernetes.go:75-79 | without command execution the trace is empty |
| KubernetesUpgrades.DryRunPrecedesUpgrade | tools/talos-automation/upgrades/kubernetes.go:83-94 | a real `upgrade-k8s` command is always directly preceded by a dry run with the same arguments plus `--dry-run` (so the same version and node), and only after a successful dry run; a failed dry run means no real upgrade |
| KubernetesUpgrades.LiveProceedUpgrades | tools/talos-automation/upgrades/kubernetes.go:81-96 | a live run that proceeds issues the members query, then the dry run for the cleaned target and the node when its transcript can be created, then the actual command exactly when the dry run succeeded and its transcript can be created; it succeeds exactly when both commands succeed, and each failure gives its own error |
| KubernetesUpgrades.KubernetesUpgradeEffectsAreKubernetes | tools/talos-automation/upgrades/kubernetes.go:27-98 | every effect of the Kubernetes upgrade is the members query, a transcript, or an `upgrade-k8s` run |
| KubernetesUpgrades.DecisionIndependentOfMode | tools/talos-automation/upgrades/kubernetes.go:47-79 | for a known current version, a rehearsal decides exactly as a live run, except that it stops where a live run would proceed |
| KubernetesUpgrades.RehearsalPredictsLiveRun | tools/talos-automation/upgrades/kubernetes.go:47-79 | a rehearsal mocked with the version the cluster reports fails exactly when the live run fails for an invalid target or a downgrade, and then with the same error |
| KubernetesUpgrades.DefaultRehearsalRefuses1_33_10 | tools/talos-automation/upgrades/kubernetes.go:153-154 | a rehearsal with no mock refuses 1.33.10, reporting a downgrade from 1.33.3 |
| KubernetesUpgrades.DowngradeScenario | tools/talos-automation/upgrades/kubernetes.go:66-70 | target 1.33.2 against a current 1.34.0 is refused as a downgrade, live or rehearsed |
| KubernetesUpgrades.KubernetesUpgrader.constructor | tools/talos-automation/upgrades/kubernetes.go:20-25 | the new upgrader keeps the config path and log path, with no mock version |
| KubernetesUpgrades.KubernetesUpgrader.SetMockCurrentVersion | tools/talos-automation/upgrades/kubernetes.go:200-204 | sets the mock version |
| KubernetesUpgrades.KubernetesUpgrader.UpgradeToVersion | tools/talos-automation/upgrades/kubernetes.go:27-98 | the error and effects are exactly those of `KubernetesUpgradeRun` for the upgrader's fields |
| TalosConfig.GetFirstControlPlaneNode | tools/talos-automation/internal/talos/config.go:33-41 | fails exactly when no visited context has endpoints; otherwise returns the first endpoint of the first visited context that has any |
| TalosConfig.GetAllNodes | tools/talos-automation/internal/talos/config.go:43-51 | fails exactly when no visited context has nodes; otherwise returns, unchanged, the non-empty node list of the first visited context that has any |
| TalosConfig.ControlPlaneNodeFromSomeContext | tools/talos-automation/internal/talos/config.go:33-41 | for any Go iteration order, a control-plane node exists exactly when some context has endpoints, and it is the first endpoint of such a context |
| TalosConfig.NodesFromSomeContext | tools/talos-automation/internal/talos/config.go:43-51 | for any Go iteration order, a node list exists exactly when some context has nodes, and it is the full node list of some context |
| TalosConfig.EndpointAndNodesFromDifferentContexts | tools/talos-automation/internal/talos/config.go:35-49 | the control-plane endpoint and the node list may come from two different contexts |
| TalosConfig.ChoiceDependsOnIterationOrder | tools/talos-automation/internal/talos/config.go:35-39 | with two contexts that both have endpoints, the iteration order decides which endpoint is returned |
| Service.GetEnvWithDefault | tools/talos-automation/main.go:56-61 | returns the variable or the default; the default exactly when the variable is empty or equal to it; the result is empty only if both are |
| Service.LoadConfig | tools/talos-automation/main.go:43-54 | each setting comes from its environment variable; the port is never empty and defaults to 3847 |
| Service.RequiredSettingsComplete | tools/talos-automation/main.go:487-508 | every required setting is in `main`'s checking order |
| Service.MissingSetting | tools/talos-automation/main.go:487-508 | `main` stops exactly when some required setting is empty, and it stops on the first empty one in its checking order |
| Service.VerifyWebhookSignature | tools/talos-automation/main.go:63-73 | a signature without `sha256=` is rejected; otherwise it is accepted exactly when it equals `sha256=` plus the hex HMAC of the payload under the secret |
| Service.Prepare | tools/talos-automation/main.go:222-244 | the shared first steps: fetch the versions, read the talosconfig, take all nodes, then the control-plane node; each failure stops with its own error |
| Service.UpgradeProcess | tools/talos-automation/main.go:141-269 | the shared upgrade sequence: `Prepare`, then the Talos upgrade over all nodes, then, only after it succeeded, the Kubernetes upgrade on the control-plane node |
| Service.TalosOverride | tools/talos-automation/main.go:177-186 | the rehearsal's mock Talos version: the explicit value, else 1.10.5 for the `talos-upgrade` and `both-upgrade` scenarios, else none |
| Service.KubernetesOverride | tools/talos-automation/main.go:199-208 | the rehearsal's mock Kubernetes version: the explicit value, else 1.33.2 for the `k8s-upgrade` and `both-upgrade` scenarios, else none |
| Service.PrepareUpgrade | tools/talos-automation/main.go:218-244 | the shared first steps (fetch the versions, parse the talosconfig, take the nodes, then the control-plane node) produce exactly the result and effects of `Prepare` |
| Service.PrepareReadsOnly | tools/talos-automation/main.go:222-244 | the first steps only read the repository and the talosconfig, and take one or two effects |
| Service.ProcessUpgrade | tools/talos-automation/main.go:218-269 | the error and effects are exactly those of `UpgradeProcess` in live mode with no mock versions |
| Service.ProcessUpgradeWithTestOverrides | tools/talos-automation/main.go:141-216 | the error and effects are exactly those of `UpgradeProcess` in rehearsal mode, with the mock versions the overrides select |
| Service.TalosBeforeKubernetes | tools/talos-automation/main.go:249-265 | every Talos effect precedes every Kubernetes effect, and both follow the repository and talosconfig reads, in either mode |
| Service.TalosFailureSkipsKubernetes | tools/talos-automation/main.go:253-255 | if the run fails for any reason other than the Kubernetes upgrade itself, nothing happens on the Kubernetes layer |
| Service.KubernetesFollowsSuccessfulTalos | tools/talos-automation/main.go:252-265 | after successful first steps and a successful Talos upgrade, the run performs the Kubernetes upgrade of the tracked version on the control-plane node: its Kubernetes effects are exactly that upgrade's, following the earlier ones, and the run succeeds exactly when that upgrade does |
| Service.ClusterUntouchedUntilNodesKnown | tools/talos-automation/main.go:222-244 | a failed fetch, an unreadable talosconfig, or one without nodes or endpoints stops the run before any cluster effect |
| Service.NodesMissingIffNoContextHasNodes | tools/talos-automation/main.go:236-239 | the run reports missing nodes exactly when the versions and the talosconfig were read and no context lists a node, for any iteration order |
| Service.RehearsalTouchesNoCluster | tools/talos-automation/main.go:188-211 | the diagnostics rehearsal only reads the repository and the talosconfig; it issues no `talosctl` command and no Image Factory request |
| Service.RehearsalVersions | tools/talos-automation/main.go:176-208 | in a rehearsal, an explicit current version wins; otherwise the scenario gives Talos 1.10.5 (`talos-upgrade`, `both-upgrade`) and Kubernetes 1.33.2 (`k8s-upgrade`, `both-upgrade`); otherwise each upgrader uses its default |
| Service.TrackVersionsModified | tools/talos-automation/main.go:109-121 | the nested search with early exit finds the tracking file exactly when some commit lists it among its modified files |
| Service.WebhookResponse | tools/talos-automation/main.go:75-139 | `handleWebhook`'s ladder: 405 for other methods, 400 for an unreadable body, 401 for a bad signature, 400 for an undecodable payload, 200 for another branch or an untracked push, otherwise the live upgrade with 500 on failure and 200 on success |
| Service.HandleWebhook | tools/talos-automation/main.go:75-139 | the status and effects are exactly those of `WebhookResponse` |
| Service.WebhookRejectsOtherMethods | tools/talos-automation/main.go:76-79 | a method other than POST gets 405 and causes nothing |
| Service.WebhookAuthenticatesBeforeParsing | tools/talos-automation/main.go:88-93 | a request with a readable body but a wrong signature gets 401 and causes nothing, whatever the payload would decode to |
| Service.UpgradeOnlyForAuthenticTrackedPush | tools/talos-automation/main.go:75-135 | anything happening at all implies a POST with a body, a correct signature, a decodable payload, the main branch and a modified tracking file |
| Service.WebhookDispatchesIffTracked | tools/talos-automation/main.go:102-138 | for an authentic push: another branch gets 200 and nothing; on main, the live upgrade runs exactly when the tracking file was modified, and the answer is 500 exactly when that upgrade failed, otherwise 200 |
| Service.DiagnosticsAccess | tools/talos-automation/main.go:276-301 | the request passes exactly when the method is GET and the header is `Bearer ` followed by the token; otherwise the answer is 405 for other methods and 401 for the rest |
| Service.StartedServiceNeedsToken | tools/talos-automation/main.go:283-301 | once the service has started, a missing header and a bare `Bearer ` header are always refused with 401 |
| Service.CheckAllTestsPass | tools/talos-automation/main.go:467-482 | readiness is false exactly when one of the seven consulted entries is an object whose `status` is present and is not "success" |
| Service.ReadinessIgnoresOtherEntries | tools/talos-automation/main.go:467-482 | entries outside the seven consulted keys never change readiness |
| Service.UpgradeTestNotConsulted | tools/talos-automation/main.go:468 | the `upgrade_test` entry, which holds the rehearsal result, is not one of the consulted keys |

## Left out

- Process execution, file creation and HTTP calls are oracle values in the world datatypes. Their effects are trace events. Command output, transcript contents and closing files are not modelled.
- `time.Now()` enters as the timestamp of each command outcome. The `20060102-150405` format is not modelled.
- `log.Printf` and `log.Fatal` output is not modelled. `log.Fatal` in `main` is modelled as the setting `MissingSetting` stops on.
- HMAC-SHA256, SHA-256 and hex encoding are function parameters. The constant-time comparison of `hmac.Equal` is modelled as plain equality.
- JSON decoding (the push event, the members list, the schematic response), YAML parsing of the talosconfig and the `Client:` regex over `talosctl version` output are oracles that deliver decoded values or fail.
- `internal/repo/github.go` is not part of this model. Fetching the tracked versions and the bare-metal manifest is modelled as its outcome only.
- The HTTP server wiring, the `/health` handler and `ListenAndServe` are not modelled.
- `diagnosticsEndpoint` is modelled only in its token gate, its rehearsal run (`ProcessUpgradeWithTestOverrides`) and its readiness rule (`CheckAllTestsPass`). The rest is left out: filling the results map, the live `GetCurrentVersion(true)` probes, and the separate `CreateSchematic` test. They only collect values for the JSON report.
- Reading the query parameters (`URL.Query().Get`) is not modelled separately. `ProcessUpgradeWithTestOverrides` takes the three parameter values, with "" for a missing one.
- The private `getCurrentVersion` wrapper of the Talos upgrader is the same function as `GetCurrentVersion`. The `GitHubClient` field is replaced by the manifest oracle.
- The `ImageFactoryClient` base URL is fixed to the schematics URL it always has.
- The text of error messages is not modelled. Errors are datatypes that keep the cause and the versions or node involved.
- Concurrent requests are not modelled. `net/http` may run webhook and diagnostics handlers at the same time, and the code has no lock, so two dispatched upgrades can interleave. Each request is modelled on its own.
- Go's map iteration order is an explicit `seq` of context names. Each of the two getters gets its own order, because Go may choose a different one per `range` loop.
- TalosUpgrades.InstallerImageIdentifies: stated only for schematic ids of equal length. With ids of different lengths, an id ending in `:v…` could in principle be confused with another.
