/**
 * The talosconfig view of internal/talos/config.go: a map of named contexts,
 * each with endpoint and node lists, and the two getters that return the
 * first context (in Go's map iteration order) that has endpoints, or nodes.
 *
 * Go leaves the iteration order of a map unspecified, so each getter takes
 * that order explicitly: any sequence that lists every key exactly once.
 */
module TalosConfig {
  import opened Wrappers

  datatype Context = Context(endpoints: seq<string>, nodes: seq<string>)

  /** A parsed talosconfig: its `contexts` section. */
  datatype Config = Config(contexts: map<string, Context>)

  datatype ConfigError = NoEndpoints | NoNodes

  /** Only keys of the map are visited. */
  predicate VisitsKeys(c: Config, order: seq<string>)
  {
    forall k :: k in order ==> k in c.contexts
  }

  /** A possible order of `range c.Contexts`: every key exactly once. */
  predicate IsIterationOrder(c: Config, order: seq<string>)
  {
    && VisitsKeys(c, order)
    && (forall k :: k in c.contexts ==> k in order)
    && (forall i, j :: 0 <= i < j < |order| ==> order[i] != order[j])
  }

  /** `GetFirstControlPlaneNode`: the first endpoint of the first visited context that has endpoints. */
  function GetFirstControlPlaneNode(c: Config, order: seq<string>): (r: Result<string, ConfigError>)
    requires VisitsKeys(c, order)
    ensures r.Err? <==> forall i :: 0 <= i < |order| ==> c.contexts[order[i]].endpoints == []
    ensures r.Err? ==> r.error == NoEndpoints
    ensures r.Ok? ==> exists i :: && 0 <= i < |order|
                                  && c.contexts[order[i]].endpoints != []
                                  && r.value == c.contexts[order[i]].endpoints[0]
                                  && forall j :: 0 <= j < i ==> c.contexts[order[j]].endpoints == []
  {
    if order == [] then Err(NoEndpoints)
    else if c.contexts[order[0]].endpoints != [] then Ok(c.contexts[order[0]].endpoints[0])
    else
      var r := GetFirstControlPlaneNode(c, order[1..]);
      assert forall i :: 1 <= i < |order| ==> order[i] == order[1..][i - 1];
      if r.Ok? then
        var i' :| && 0 <= i' < |order[1..]|
                  && c.contexts[order[1..][i']].endpoints != []
                  && r.value == c.contexts[order[1..][i']].endpoints[0]
                  && forall j :: 0 <= j < i' ==> c.contexts[order[1..][j]].endpoints == [];
        assert forall j :: 0 <= j < i' + 1 ==> c.contexts[order[j]].endpoints == [] by {
          forall j | 1 <= j < i' + 1 ensures c.contexts[order[j]].endpoints == [] {
            assert order[j] == order[1..][j - 1];
          }
        }
        r
      else r
  }

  /** `GetAllNodes`: the whole node list of the first visited context that has nodes. */
  function GetAllNodes(c: Config, order: seq<string>): (r: Result<seq<string>, ConfigError>)
    requires VisitsKeys(c, order)
    ensures r.Err? <==> forall i :: 0 <= i < |order| ==> c.contexts[order[i]].nodes == []
    ensures r.Err? ==> r.error == NoNodes
    ensures r.Ok? ==> r.value != [] && exists i :: && 0 <= i < |order|
                                                   && r.value == c.contexts[order[i]].nodes
                                                   && forall j :: 0 <= j < i ==> c.contexts[order[j]].nodes == []
  {
    if order == [] then Err(NoNodes)
    else if c.contexts[order[0]].nodes != [] then Ok(c.contexts[order[0]].nodes)
    else
      var r := GetAllNodes(c, order[1..]);
      assert forall i :: 1 <= i < |order| ==> order[i] == order[1..][i - 1];
      if r.Ok? then
        var i' :| && 0 <= i' < |order[1..]|
                  && r.value == c.contexts[order[1..][i']].nodes
                  && forall j :: 0 <= j < i' ==> c.contexts[order[1..][j]].nodes == [];
        assert forall j :: 0 <= j < i' + 1 ==> c.contexts[order[j]].nodes == [] by {
          forall j | 1 <= j < i' + 1 ensures c.contexts[order[j]].nodes == [] {
            assert order[j] == order[1..][j - 1];
          }
        }
        r
      else r
  }

  /**
   * Whatever the iteration order, the control-plane node is the first
   * endpoint of some context, and there is one exactly when some context
   * has endpoints.
   */
  lemma ControlPlaneNodeFromSomeContext(c: Config, order: seq<string>)
    requires IsIterationOrder(c, order)
    ensures GetFirstControlPlaneNode(c, order).Ok? <==> exists k :: k in c.contexts && c.contexts[k].endpoints != []
    ensures GetFirstControlPlaneNode(c, order).Ok? ==>
      exists k :: k in c.contexts && c.contexts[k].endpoints != [] &&
        GetFirstControlPlaneNode(c, order).value == c.contexts[k].endpoints[0]
  {
    var r := GetFirstControlPlaneNode(c, order);
    if r.Ok? {
      var i :| 0 <= i < |order| && c.contexts[order[i]].endpoints != [] && r.value == c.contexts[order[i]].endpoints[0];
      assert order[i] in c.contexts;
    } else {
      forall k | k in c.contexts ensures c.contexts[k].endpoints == [] {
        var i :| 0 <= i < |order| && order[i] == k;
      }
    }
  }

  /**
   * Whatever the iteration order, the node list is the full, unchanged node
   * list of some context, and there is one exactly when some context has nodes.
   */
  lemma NodesFromSomeContext(c: Config, order: seq<string>)
    requires IsIterationOrder(c, order)
    ensures GetAllNodes(c, order).Ok? <==> exists k :: k in c.contexts && c.contexts[k].nodes != []
    ensures GetAllNodes(c, order).Ok? ==>
      exists k :: k in c.contexts && GetAllNodes(c, order).value == c.contexts[k].nodes
  {
    var r := GetAllNodes(c, order);
    if r.Ok? {
      var i :| 0 <= i < |order| && r.value == c.contexts[order[i]].nodes;
      assert order[i] in c.contexts;
    } else {
      forall k | k in c.contexts ensures c.contexts[k].nodes == [] {
        var i :| 0 <= i < |order| && order[i] == k;
      }
    }
  }

  /** The endpoint and the node list need not come from the same context. */
  lemma EndpointAndNodesFromDifferentContexts()
    ensures var c := Config(map["a" := Context(["10.0.0.1"], []), "b" := Context([], ["10.0.0.2"])]);
      && IsIterationOrder(c, ["a", "b"])
      && GetFirstControlPlaneNode(c, ["a", "b"]) == Ok("10.0.0.1")
      && GetAllNodes(c, ["a", "b"]) == Ok(["10.0.0.2"])
  {
    var c := Config(map["a" := Context(["10.0.0.1"], []), "b" := Context([], ["10.0.0.2"])]);
    assert ["a", "b"][1..] == ["b"];
  }

  /** With two contexts that both have endpoints, the iteration order decides which one is used. */
  lemma ChoiceDependsOnIterationOrder()
    ensures var c := Config(map["a" := Context(["10.0.0.1"], ["10.0.0.1"]), "b" := Context(["10.0.0.2"], ["10.0.0.2"])]);
      && IsIterationOrder(c, ["a", "b"]) && IsIterationOrder(c, ["b", "a"])
      && GetFirstControlPlaneNode(c, ["a", "b"]) == Ok("10.0.0.1")
      && GetFirstControlPlaneNode(c, ["b", "a"]) == Ok("10.0.0.2")
  {
  }
}
