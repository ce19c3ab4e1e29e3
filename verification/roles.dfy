/**
 * The role deployments after the registries: `deploy_api_webconsole`,
 * `deploy_metadata`, `deploy_data` and `deploy_client`.
 */
module Roles {
  import opened Wrappers
  import opened Manifests
  import opened Cluster
  import opened Settings
  import opened Reconcile
  import opened Readiness

  /** The deployment list of `deploy_api_webconsole`: by name and by role. */
  function WebconsoleQuery(namespace: string): Call {
    List(Deployment, namespace, Selector(Some("webconsole"), Some(("role", "webconsole"))))
  }

  function WebconsoleCreate(namespace: string, template: Manifest, version: string): Call
    requires WellShaped(template)
  {
    Create(Deployment, namespace, WithVersion(template, version))
  }

  function WebconsolePods(namespace: string): Call {
    List(Pod, namespace, ByRole("webconsole"))
  }

  /**
   * `deploy_api_webconsole`: an answered list ends the step; otherwise the
   * versioned deployment is created and, unless that raised ValueError, the
   * webconsole pod is waited for.
   */
  function WebconsoleRun(o: Oracle, log: seq<Call>, namespace: string, template: Manifest, version: string): Run
    requires WellShaped(template)
  {
    var create := IfAbsentRun(o, log, WebconsoleQuery(namespace), WebconsoleCreate(namespace, template, version));
    if |create.calls| == 1 || create.status.Fail? then create
    else
      var w := WaitRun(o, log + create.calls, WebconsolePods(namespace), MaxTries);
      Run(create.calls + w.calls,
          if w.status.Fail? then w.status else if w.up then Ok else Fail(WebconsoleTimeout))
  }

  /**
   * An answered deployment list, even an empty one, means no creation and no
   * wait. Otherwise the deployment is created with the version; a wait follows
   * unless the creation raised ValueError, and it polls the webconsole pods at
   * most MaxTries times. A timeout means every poll saw the pod not ready; a
   * successful wait ends on a ready pod.
   */
  lemma WebconsoleContract(o: Oracle, log: seq<Call>, namespace: string, template: Manifest, version: string)
    requires WellShaped(template)
    ensures var r := WebconsoleRun(o, log, namespace, template, version);
      var q := WebconsoleQuery(namespace); var c := WebconsoleCreate(namespace, template, version);
      var pods := WebconsolePods(namespace); var waitLog := log + [q, c];
      && |r.calls| >= 1 && r.calls[0] == q
      && (o(log, q).Response? ==> r == Run([q], Ok))
      && (!o(log, q).Response? ==> |r.calls| >= 2 && r.calls[..2] == [q, c])
      && (!o(log, q).Response? && o(log + [q], c).ValueErr? ==> r == Run([q, c], Fail(Crashed(UncaughtValueError))))
      && (!o(log, q).Response? && !o(log + [q], c).ValueErr? ==>
            3 <= |r.calls| <= 2 + MaxTries && r.calls[2..] == Repeat(pods, |r.calls| - 2))
      && (r.status == Fail(WebconsoleTimeout) ==>
            && |r.calls| == 2 + MaxTries
            && forall i :: 0 <= i < MaxTries ==> ProbePods(PollReply(o, waitLog, pods, i)) == NotReady)
      && (r.status.Ok? && !o(log, q).Response? ==> ProbePods(PollReply(o, waitLog, pods, |r.calls| - 3)) == Ready)
      && (r.status.Fail? ==> r.status == Fail(WebconsoleTimeout) || r.status.failure.Crashed?)
  {
    var q := WebconsoleQuery(namespace);
    var c := WebconsoleCreate(namespace, template, version);
    var pods := WebconsolePods(namespace);
    var r := WebconsoleRun(o, log, namespace, template, version);
    if !o(log, q).Response? && !o(log + [q], c).ValueErr? {
      var w := WaitRun(o, log + [q, c], pods, MaxTries);
      WaitContract(o, log + [q, c], pods, MaxTries, w);
      assert r.calls == [q, c] + w.calls;
      assert r.calls[2..] == w.calls;
      if w.status.Ok? && !w.up {
        WaitTimeout(o, log + [q, c], pods, MaxTries, w);
      }
    }
  }

  /** The three ways `deploy_api_webconsole` can go, by the replies to its list and its creation. */
  lemma WebconsoleCases(o: Oracle, log: seq<Call>, namespace: string, template: Manifest, version: string)
    requires WellShaped(template)
    ensures var r := WebconsoleRun(o, log, namespace, template, version);
      var q := WebconsoleQuery(namespace); var c := WebconsoleCreate(namespace, template, version);
      var w := WaitRun(o, log + [q, c], WebconsolePods(namespace), MaxTries);
      && (o(log, q).Response? ==> r == Run([q], Ok))
      && (!o(log, q).Response? && o(log + [q], c).ValueErr? ==> r == Run([q, c], Fail(Crashed(UncaughtValueError))))
      && (!o(log, q).Response? && !o(log + [q], c).ValueErr? ==>
            r == Run([q, c] + w.calls, if w.status.Fail? then w.status else if w.up then Ok else Fail(WebconsoleTimeout)))
  {
  }

  /** `deploy_api_webconsole(namespace, _, version)`. */
  method DeployApiWebconsole(cp: ControlPlane, namespace: string, template: Manifest, version: string)
    returns (st: Status)
    requires cp.Valid() && WellShaped(template)
    modifies cp
    ensures cp.Valid()
    ensures var r := WebconsoleRun(cp.oracle, old(cp.log), namespace, template, version);
      cp.log == old(cp.log) + r.calls && st == r.status
  {
    ghost var log0 := cp.log;
    WebconsoleCases(cp.oracle, log0, namespace, template, version);
    var q := WebconsoleQuery(namespace);
    var r := cp.Request(q);
    if r.Response? {
      return Ok;
    }
    var body := SetVersionInSpec(template, version);
    var c := Create(Deployment, namespace, body);
    assert c == WebconsoleCreate(namespace, template, version);
    st := Submit(cp, c);
    if st.Fail? {
      return;
    }
    assert cp.log == log0 + [q, c];
    ghost var w := WaitRun(cp.oracle, cp.log, WebconsolePods(namespace), MaxTries);
    var up, s := WaitForRunningPod(cp, namespace, ByRole("webconsole"));
    AppendAssoc(log0, [q, c], w.calls);
    st := if s.Fail? then s else if up then Ok else Fail(WebconsoleTimeout);
  }

  /** `deploy_metadata`: the DaemonSet, then a label for every configured node, `all` included. */
  function MetadataRun(o: Oracle, log: seq<Call>, namespace: string, template: Manifest, version: string,
                       nodes: seq<NodeEntry>): Run
    requires WellShaped(template)
  {
    var ds := IfAbsentRun(o, log, DaemonSetQuery(namespace, "metadata"), DaemonSetCreate(namespace, template, version));
    if ds.status.Fail? then ds
    else Then(ds.calls, LabelNodesRun(o, log + ds.calls, NodeNames(nodes), MetadataKey, LabelValue))
  }

  /** The unfiltered node list of the `all` sentinel. */
  function AllNodesQuery(): Call {
    List(Node, "", Selector(None, None))
  }

  /** The names of the listed objects, in order. */
  function ObjectNames(items: seq<Object>): (r: seq<string>)
    ensures |r| == |items| && forall i :: 0 <= i < |items| ==> r[i] == items[i].name
  {
    seq(|items|, i requires 0 <= i < |items| => items[i].name)
  }

  /**
   * The node labelling of `deploy_data` and `deploy_client`: an empty node list
   * fails on `nodes[0]`; when its first entry is `all`, every node of the cluster
   * gets `allKey` (ApiException from the full list leaves nothing to iterate,
   * ValueError escapes); otherwise the configured nodes get `listKey`.
   */
  function RoleNodesRun(o: Oracle, log: seq<Call>, nodes: seq<NodeEntry>, allKey: string, listKey: string): Run {
    if nodes == [] then Run([], Fail(Crashed(IndexOutOfRange)))
    else if nodes[0].node == AllNodes then
      var reply := o(log, AllNodesQuery());
      if reply.ValueErr? then Run([AllNodesQuery()], Fail(Crashed(UncaughtValueError)))
      else if reply.ApiError? then Run([AllNodesQuery()], Fail(Crashed(ItemsOfNone)))
      else Then([AllNodesQuery()], LabelNodesRun(o, log + [AllNodesQuery()], ObjectNames(reply.items), allKey, LabelValue))
    else LabelNodesRun(o, log, NodeNames(nodes), listKey, LabelValue)
  }

  /**
   * With the sentinel first, the rest of the configured list is ignored: after
   * the full node list, only nodes that list returned are labelled, with
   * `allKey`, all of them in order unless a patch raised. Without it, exactly
   * the configured nodes are labelled with `listKey`.
   */
  lemma RoleNodesContract(o: Oracle, log: seq<Call>, nodes: seq<NodeEntry>, allKey: string, listKey: string)
    ensures var r := RoleNodesRun(o, log, nodes, allKey, listKey);
      && (nodes == [] ==> r == Run([], Fail(Crashed(IndexOutOfRange))))
      && (nodes != [] && nodes[0].node == AllNodes ==>
            var reply := o(log, AllNodesQuery());
            && r.calls[0] == AllNodesQuery()
            && (!reply.Response? ==> r.calls == [AllNodesQuery()] && r.status.Fail?
                                     && r.status.failure == Crashed(if reply.ApiError? then ItemsOfNone else UncaughtValueError))
            && (reply.Response? ==>
                  && (forall c :: c in r.calls[1..] ==> IsLabelCall(c, allKey, LabelValue) && LabelTarget(c) in ObjectNames(reply.items))
                  && (r.status.Ok? ==> QueriedNodes(r.calls[1..]) == ObjectNames(reply.items))))
      && (nodes != [] && nodes[0].node != AllNodes ==>
            && (forall c :: c in r.calls ==> IsLabelCall(c, listKey, LabelValue) && LabelTarget(c) in NodeNames(nodes))
            && (r.status.Ok? ==> QueriedNodes(r.calls) == NodeNames(nodes)))
      && (r.status.Fail? ==> r.status.failure.Crashed?)
  {
    if nodes != [] {
      if nodes[0].node == AllNodes {
        var reply := o(log, AllNodesQuery());
        if reply.Response? {
          var rest := LabelNodesRun(o, log + [AllNodesQuery()], ObjectNames(reply.items), allKey, LabelValue);
          LabelNodesInOrder(o, log + [AllNodesQuery()], ObjectNames(reply.items), allKey, LabelValue);
          assert RoleNodesRun(o, log, nodes, allKey, listKey).calls[1..] == rest.calls;
        }
      } else {
        LabelNodesInOrder(o, log, NodeNames(nodes), listKey, LabelValue);
      }
    }
  }

  /** `deploy_data`: the DaemonSet, then the node labelling. */
  function DataRun(o: Oracle, log: seq<Call>, namespace: string, template: Manifest, version: string,
                   nodes: seq<NodeEntry>): Run
    requires WellShaped(template)
  {
    var ds := IfAbsentRun(o, log, DaemonSetQuery(namespace, "data"), DaemonSetCreate(namespace, template, version));
    if ds.status.Fail? then ds
    else Then(ds.calls, RoleNodesRun(o, log + ds.calls, nodes, DataKey, MetadataKey))
  }

  /** `deploy_client`: the DaemonSet, then the node labelling. */
  function ClientRun(o: Oracle, log: seq<Call>, namespace: string, template: Manifest, version: string,
                     nodes: seq<NodeEntry>): Run
    requires WellShaped(template)
  {
    var ds := IfAbsentRun(o, log, DaemonSetQuery(namespace, "client"), DaemonSetCreate(namespace, template, version));
    if ds.status.Fail? then ds
    else Then(ds.calls, RoleNodesRun(o, log + ds.calls, nodes, ClientKey, ClientKey))
  }

  /**
   * The metadata step labels the configured nodes with `quobyte_metadata`, the
   * sentinel `all` taken as a node name like any other.
   */
  lemma MetadataContract(o: Oracle, log: seq<Call>, namespace: string, template: Manifest, version: string,
                         nodes: seq<NodeEntry>)
    requires WellShaped(template)
    ensures var r := MetadataRun(o, log, namespace, template, version, nodes);
      var ds := IfAbsentRun(o, log, DaemonSetQuery(namespace, "metadata"), DaemonSetCreate(namespace, template, version));
      && r.calls[..|ds.calls|] == ds.calls
      && (forall c :: c in r.calls[|ds.calls|..] ==> IsLabelCall(c, MetadataKey, LabelValue) && LabelTarget(c) in NodeNames(nodes))
      && (r.status.Ok? ==> QueriedNodes(r.calls[|ds.calls|..]) == NodeNames(nodes))
      && (r.status.Fail? ==> r.status == Fail(Crashed(UncaughtValueError)))
  {
    var ds := IfAbsentRun(o, log, DaemonSetQuery(namespace, "metadata"), DaemonSetCreate(namespace, template, version));
    if ds.status.Ok? {
      var rest := LabelNodesRun(o, log + ds.calls, NodeNames(nodes), MetadataKey, LabelValue);
      LabelNodesInOrder(o, log + ds.calls, NodeNames(nodes), MetadataKey, LabelValue);
      assert (ds.calls + rest.calls)[|ds.calls|..] == rest.calls;
    }
  }

  /**
   * The data step labels a configured node list (one that does not start with
   * `all`) with `quobyte_metadata`, not `quobyte_data`: the label key is the one
   * the code passes on that path.
   */
  lemma DataListedNodesGetMetadataLabel(o: Oracle, log: seq<Call>, namespace: string, template: Manifest,
                                        version: string, nodes: seq<NodeEntry>)
    requires WellShaped(template) && nodes != [] && nodes[0].node != AllNodes
    ensures var r := DataRun(o, log, namespace, template, version, nodes);
      var ds := IfAbsentRun(o, log, DaemonSetQuery(namespace, "data"), DaemonSetCreate(namespace, template, version));
      && r.calls[..|ds.calls|] == ds.calls
      && (forall c :: c in r.calls[|ds.calls|..] ==> IsLabelCall(c, MetadataKey, LabelValue))
      && (r.status.Ok? ==> QueriedNodes(r.calls[|ds.calls|..]) == NodeNames(nodes))
  {
    var ds := IfAbsentRun(o, log, DaemonSetQuery(namespace, "data"), DaemonSetCreate(namespace, template, version));
    if ds.status.Ok? {
      var rest := RoleNodesRun(o, log + ds.calls, nodes, DataKey, MetadataKey);
      RoleNodesContract(o, log + ds.calls, nodes, DataKey, MetadataKey);
      assert (ds.calls + rest.calls)[|ds.calls|..] == rest.calls;
    }
  }

  /** Where every list is answered, the webconsole step lists the deployment and does nothing else. */
  lemma WebconsoleAnswered(o: Oracle, log: seq<Call>, namespace: string, template: Manifest, version: string)
    requires WellShaped(template) && ListsAnswered(o)
    ensures WebconsoleRun(o, log, namespace, template, version) == Run([WebconsoleQuery(namespace)], Ok)
  {
    IfAbsentAnswered(o, log, WebconsoleQuery(namespace), WebconsoleCreate(namespace, template, version));
  }

  /**
   * Where every list is answered, the node labelling of the data and client steps
   * only reads, and fails only on an empty node list.
   */
  lemma RoleNodesAnswered(o: Oracle, log: seq<Call>, nodes: seq<NodeEntry>, allKey: string, listKey: string)
    requires ListsAnswered(o)
    ensures var r := RoleNodesRun(o, log, nodes, allKey, listKey);
      ReadOnly(r.calls) && (r.status.Fail? <==> nodes == [])
  {
    if nodes != [] {
      if nodes[0].node == AllNodes {
        var reply := o(log, AllNodesQuery());
        assert reply.Response?;
        var rest := LabelNodesRun(o, log + [AllNodesQuery()], ObjectNames(reply.items), allKey, LabelValue);
        LabelNodesAnswered(o, log + [AllNodesQuery()], ObjectNames(reply.items), allKey, LabelValue);
        ReadOnlyConcat([AllNodesQuery()], rest.calls);
      } else {
        LabelNodesAnswered(o, log, NodeNames(nodes), listKey, LabelValue);
      }
    }
  }

  /**
   * Where every list is answered, the metadata, data and client steps create no
   * DaemonSet and label no node: they only read, and only the data and client
   * steps can fail, on an empty node list.
   */
  lemma RolesAnswered(o: Oracle, log: seq<Call>, namespace: string, template: Manifest, version: string,
                      nodes: seq<NodeEntry>)
    requires WellShaped(template) && ListsAnswered(o)
    ensures var m := MetadataRun(o, log, namespace, template, version, nodes);
      ReadOnly(m.calls) && m.status.Ok?
    ensures var d := DataRun(o, log, namespace, template, version, nodes);
      ReadOnly(d.calls) && (d.status.Fail? <==> nodes == [])
    ensures var c := ClientRun(o, log, namespace, template, version, nodes);
      ReadOnly(c.calls) && (c.status.Fail? <==> nodes == [])
  {
    IfAbsentAnswered(o, log, DaemonSetQuery(namespace, "metadata"), DaemonSetCreate(namespace, template, version));
    IfAbsentAnswered(o, log, DaemonSetQuery(namespace, "data"), DaemonSetCreate(namespace, template, version));
    IfAbsentAnswered(o, log, DaemonSetQuery(namespace, "client"), DaemonSetCreate(namespace, template, version));
    var m := LabelNodesRun(o, log + [DaemonSetQuery(namespace, "metadata")], NodeNames(nodes), MetadataKey, LabelValue);
    LabelNodesAnswered(o, log + [DaemonSetQuery(namespace, "metadata")], NodeNames(nodes), MetadataKey, LabelValue);
    ReadOnlyConcat([DaemonSetQuery(namespace, "metadata")], m.calls);
    var d := RoleNodesRun(o, log + [DaemonSetQuery(namespace, "data")], nodes, DataKey, MetadataKey);
    RoleNodesAnswered(o, log + [DaemonSetQuery(namespace, "data")], nodes, DataKey, MetadataKey);
    ReadOnlyConcat([DaemonSetQuery(namespace, "data")], d.calls);
    var c := RoleNodesRun(o, log + [DaemonSetQuery(namespace, "client")], nodes, ClientKey, ClientKey);
    RoleNodesAnswered(o, log + [DaemonSetQuery(namespace, "client")], nodes, ClientKey, ClientKey);
    ReadOnlyConcat([DaemonSetQuery(namespace, "client")], c.calls);
  }

  /** The node labelling shared by `deploy_data` and `deploy_client`. */
  method LabelRoleNodes(cp: ControlPlane, nodes: seq<NodeEntry>, allKey: string, listKey: string) returns (st: Status)
    requires cp.Valid()
    modifies cp
    ensures cp.Valid()
    ensures var r := RoleNodesRun(cp.oracle, old(cp.log), nodes, allKey, listKey);
      cp.log == old(cp.log) + r.calls && st == r.status
  {
    if |nodes| == 0 {
      return Fail(Crashed(IndexOutOfRange));
    }
    if nodes[0].node == AllNodes {
      var q := AllNodesQuery();
      var reply := cp.Request(q);
      if reply.ValueErr? {
        return Fail(Crashed(UncaughtValueError));
      }
      if reply.ApiError? {
        return Fail(Crashed(ItemsOfNone));
      }
      ghost var listed := cp.log;
      ghost var rest := LabelNodesRun(cp.oracle, listed, ObjectNames(reply.items), allKey, LabelValue);
      st := LabelNodes(cp, ObjectNames(reply.items), allKey, LabelValue);
      AppendAssoc(old(cp.log), [q], rest.calls);
      return;
    }
    st := LabelNodes(cp, NodeNames(nodes), listKey, LabelValue);
  }

  /** `deploy_metadata(namespace, _, nodes, version)`. */
  method DeployMetadata(cp: ControlPlane, namespace: string, template: Manifest, version: string, nodes: seq<NodeEntry>)
    returns (st: Status)
    requires cp.Valid() && WellShaped(template)
    modifies cp
    ensures cp.Valid()
    ensures var r := MetadataRun(cp.oracle, old(cp.log), namespace, template, version, nodes);
      cp.log == old(cp.log) + r.calls && st == r.status
  {
    st := CreateDaemonSet(cp, namespace, "metadata", template, version);
    if st.Fail? {
      return;
    }
    ghost var created := cp.log;
    ghost var ds := created[|old(cp.log)|..];
    ghost var rest := LabelNodesRun(cp.oracle, created, NodeNames(nodes), MetadataKey, LabelValue);
    st := LabelNodes(cp, NodeNames(nodes), MetadataKey, LabelValue);
    AppendAssoc(old(cp.log), ds, rest.calls);
  }

  /** `deploy_data(namespace, _, nodes, version)`. */
  method DeployData(cp: ControlPlane, namespace: string, template: Manifest, version: string, nodes: seq<NodeEntry>)
    returns (st: Status)
    requires cp.Valid() && WellShaped(template)
    modifies cp
    ensures cp.Valid()
    ensures var r := DataRun(cp.oracle, old(cp.log), namespace, template, version, nodes);
      cp.log == old(cp.log) + r.calls && st == r.status
  {
    st := CreateDaemonSet(cp, namespace, "data", template, version);
    if st.Fail? {
      return;
    }
    ghost var created := cp.log;
    ghost var ds := created[|old(cp.log)|..];
    ghost var rest := RoleNodesRun(cp.oracle, created, nodes, DataKey, MetadataKey);
    st := LabelRoleNodes(cp, nodes, DataKey, MetadataKey);
    AppendAssoc(old(cp.log), ds, rest.calls);
  }

  /** `deploy_client(namespace, _, nodes, version)`. */
  method DeployClient(cp: ControlPlane, namespace: string, template: Manifest, version: string, nodes: seq<NodeEntry>)
    returns (st: Status)
    requires cp.Valid() && WellShaped(template)
    modifies cp
    ensures cp.Valid()
    ensures var r := ClientRun(cp.oracle, old(cp.log), namespace, template, version, nodes);
      cp.log == old(cp.log) + r.calls && st == r.status
  {
    st := CreateDaemonSet(cp, namespace, "client", template, version);
    if st.Fail? {
      return;
    }
    ghost var created := cp.log;
    ghost var ds := created[|old(cp.log)|..];
    ghost var rest := RoleNodesRun(cp.oracle, created, nodes, ClientKey, ClientKey);
    st := LabelRoleNodes(cp, nodes, ClientKey, ClientKey);
    AppendAssoc(old(cp.log), ds, rest.calls);
  }
}
