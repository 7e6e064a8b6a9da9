/**
 * The outside world of the upgrade engine.  Every `talosctl` run, HTTP call
 * and file creation the engine performs becomes an `Event` in the trace it
 * returns; what the world answers is supplied as an oracle value.
 */
module Cluster {
  import opened Wrappers
  import opened Text

  /**
   * What happened when a transcript-producing `talosctl` command was started:
   * the timestamp used in the transcript's name (`time.Now()` formatted as
   * `20060102-150405`), whether `os.Create` of the transcript succeeded, and
   * whether the command exited successfully.
   */
  datatype CommandRun = CommandRun(timestamp: string, logCreated: bool, exitOk: bool)

  predicate Succeeds(run: CommandRun)
  {
    run.logCreated && run.exitOk
  }

  /** An already-decoded JSON value (`encoding/json` into `interface{}`), as far as it matters here. */
  datatype Json = JString(str: string) | JObject(fields: map<string, Json>) | JOther

  datatype Event =
    /** `talosctl --talosconfig P version --short` */
    | TalosVersionQuery(args: seq<string>)
    /** GitHub contents API read of the bare-metal extension manifest */
    | ManifestFetch(owner: string, repo: string)
    /** POST of the manifest to the Image Factory */
    | SchematicPost(url: string, body: seq<byte>)
    /** transcript file created, then `talosctl ... upgrade --nodes N ...` run with its output there */
    | NodeUpgrade(node: string, args: seq<string>, transcript: string)
    /** `talosctl --talosconfig P get members -o json -n N` */
    | MembersQuery(args: seq<string>)
    /** transcript file created for an `upgrade-k8s` command that is then not run */
    | TranscriptCreated(path: string)
    /** transcript file created, then `talosctl ... upgrade-k8s ...` run with its output there */
    | KubernetesUpgrade(dryRun: bool, args: seq<string>, transcript: string)
    /** GitHub contents API read of the version-tracking file */
    | VersionsFetch(owner: string, repo: string)
    /** read of the local talosconfig file */
    | ConfigRead(path: string)

  /** Effects of the operating-system (Talos) upgrade. */
  predicate IsTalosEvent(e: Event)
  {
    e.TalosVersionQuery? || e.ManifestFetch? || e.SchematicPost? || e.NodeUpgrade?
  }

  /** Effects of the orchestration-layer (Kubernetes) upgrade. */
  predicate IsKubernetesEvent(e: Event)
  {
    e.MembersQuery? || e.TranscriptCreated? || e.KubernetesUpgrade?
  }

  /** The Kubernetes-layer effects of a trace, in order. */
  function KubernetesEvents(trace: seq<Event>): seq<Event>
  {
    if trace == [] then []
    else (if IsKubernetesEvent(trace[0]) then [trace[0]] else []) + KubernetesEvents(trace[1..])
  }

  lemma {:induction false} KubernetesEventsConcat(a: seq<Event>, b: seq<Event>)
    ensures KubernetesEvents(a + b) == KubernetesEvents(a) + KubernetesEvents(b)
  {
    if a == [] {
      assert a + b == b;
    } else {
      assert (a + b)[1..] == a[1..] + b;
      KubernetesEventsConcat(a[1..], b);
    }
  }

  /** Filtering a trace made only of Kubernetes effects keeps all of it. */
  lemma {:induction false} KubernetesEventsOfKubernetesTrace(trace: seq<Event>)
    requires forall e :: e in trace ==> IsKubernetesEvent(e)
    ensures KubernetesEvents(trace) == trace
  {
    if trace != [] {
      assert trace[0] in trace;
      assert forall e :: e in trace[1..] ==> e in trace;
      KubernetesEventsOfKubernetesTrace(trace[1..]);
      assert trace == [trace[0]] + trace[1..];
    }
  }

  /** Filtering a trace without Kubernetes effects leaves nothing. */
  lemma {:induction false} KubernetesEventsOfOtherTrace(trace: seq<Event>)
    requires forall e :: e in trace ==> !IsKubernetesEvent(e)
    ensures KubernetesEvents(trace) == []
  {
    if trace != [] {
      assert trace[0] in trace;
      assert forall e :: e in trace[1..] ==> e in trace;
      KubernetesEventsOfOtherTrace(trace[1..]);
    }
  }

  /** Upgrade commands sent to the cluster (the Kubernetes dry run included). */
  predicate IsUpgradeCommand(e: Event)
  {
    e.NodeUpgrade? || e.KubernetesUpgrade?
  }

  /** An operation's error, if any, and the effects it had, in order. */
  datatype Run<+E> = Run(err: Option<E>, trace: seq<Event>)

  /**
   * What an upgrader decides once it knows the cleaned target and the outcome
   * of the current-version lookup.
   */
  datatype Decision<+Q> =
    | CurrentUnknown(cause: Q)
    | AlreadyCurrent
    | DowngradeRejected(current: string)
    | DryRun
    | Proceed
}
