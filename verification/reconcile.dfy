/**
 * The read-then-write pattern every create step and `label_node` follow: list
 * first, and write only when the list call raised. A list that answers, even
 * with no items, counts as "already there".
 */
module Reconcile {
  import opened Wrappers
  import opened Manifests
  import opened Cluster
  import JsonPatch
  import opened Settings

  /**
   * The calls of one read-then-write: the list `read` always; the write only when
   * the list raised (ApiException or ValueError, both caught). A write that raises
   * ApiException is swallowed; one that raises ValueError is not caught and ends the run.
   */
  function IfAbsentRun(o: Oracle, log: seq<Call>, read: Call, write: Call): (r: Run)
    requires read.List? && !write.List?
    ensures r.calls == [read] || r.calls == [read, write]
    ensures write in r.calls <==> !o(log, read).Response?
    ensures r.status.Fail? <==> write in r.calls && o(log + [read], write).ValueErr?
    ensures r.status.Fail? ==> r.status == Fail(Crashed(UncaughtValueError))
  {
    if o(log, read).Response? then Run([read], Ok)
    else Run([read, write], if o(log + [read], write).ValueErr? then Fail(Crashed(UncaughtValueError)) else Ok)
  }

  /**
   * What a read-then-write does to the objects: nothing when the list answered;
   * otherwise what the write does given its reply. A create that got a response
   * leaves its body stored under its name.
   */
  lemma IfAbsentEffect(s: Store, o: Oracle, log: seq<Call>, read: Call, write: Call)
    requires read.List? && !write.List?
    ensures var before := Replay(s, o, log);
      var after := Replay(s, o, log + IfAbsentRun(o, log, read, write).calls);
      && (o(log, read).Response? ==> after == before)
      && (!o(log, read).Response? ==> after == Apply(before, write, o(log + [read], write)))
      && (!o(log, read).Response? && write.Create? && write.resource != Node && o(log + [read], write).Response? ==>
            Stored(after, write.resource, write.body))
  {
    ReplayReadOnly(s, o, log, [read]);
    if !o(log, read).Response? {
      var whole := log + [read, write];
      assert whole[..|whole| - 1] == log + [read] && whole[|whole| - 1] == write;
    }
  }

  /** Issues `write`: ApiException is logged and swallowed, ValueError escapes. */
  method Submit(cp: ControlPlane, write: Call) returns (st: Status)
    requires cp.Valid()
    modifies cp
    ensures cp.Valid() && cp.log == old(cp.log) + [write]
    ensures st == if cp.oracle(old(cp.log), write).ValueErr? then Fail(Crashed(UncaughtValueError)) else Ok
  {
    var r := cp.Request(write);
    st := if r.ValueErr? then Fail(Crashed(UncaughtValueError)) else Ok;
  }

  method IfAbsent(cp: ControlPlane, read: Call, write: Call) returns (st: Status)
    requires cp.Valid() && read.List? && !write.List?
    modifies cp
    ensures cp.Valid()
    ensures cp.log == old(cp.log) + IfAbsentRun(cp.oracle, old(cp.log), read, write).calls
    ensures st == IfAbsentRun(cp.oracle, old(cp.log), read, write).status
  {
    var r := cp.Request(read);
    st := Ok;
    if !r.Response? {
      st := Submit(cp, write);
    }
  }

  function ByName(name: string): Selector {
    Selector(Some(name), None)
  }

  function ByRole(role: string): Selector {
    Selector(None, Some(("role", role)))
  }

  /** `create_namespace` looks for a namespace called `quobyte`, whatever name it then creates. */
  function NamespaceQuery(): Call {
    List(Namespace, "", ByName("quobyte"))
  }

  function NamespaceCreate(namespace: string): Call {
    Create(Namespace, "", Manifest("Namespace", namespace, map[], OtherSpec))
  }

  function ConfigMapQuery(namespace: string): Call {
    List(ConfigMap, namespace, ByName("quobyte-config"))
  }

  function ServiceQuery(namespace: string, name: string): Call {
    List(Service, namespace, ByName(name))
  }

  function DaemonSetQuery(namespace: string, name: string): Call {
    List(DaemonSet, namespace, ByName(name))
  }

  function DaemonSetCreate(namespace: string, template: Manifest, version: string): Call
    requires WellShaped(template)
  {
    Create(DaemonSet, namespace, WithVersion(template, version))
  }

  function QmgmtQuery(namespace: string): Call {
    List(Pod, namespace, ByRole("qmgmt-pod"))
  }

  function QmgmtCreate(namespace: string, template: Manifest, version: string): Call
    requires WellShaped(template)
  {
    Create(Pod, namespace, WithVersion(template, version))
  }

  /** `create_namespace`. */
  method CreateNamespace(cp: ControlPlane, namespace: string) returns (st: Status)
    requires cp.Valid()
    modifies cp
    ensures cp.Valid()
    ensures cp.log == old(cp.log) + IfAbsentRun(cp.oracle, old(cp.log), NamespaceQuery(), NamespaceCreate(namespace)).calls
    ensures st == IfAbsentRun(cp.oracle, old(cp.log), NamespaceQuery(), NamespaceCreate(namespace)).status
  {
    st := IfAbsent(cp, NamespaceQuery(), NamespaceCreate(namespace));
  }

  /** `create_configmap`. */
  method CreateConfigMap(cp: ControlPlane, namespace: string, body: Manifest) returns (st: Status)
    requires cp.Valid()
    modifies cp
    ensures cp.Valid()
    ensures cp.log == old(cp.log) + IfAbsentRun(cp.oracle, old(cp.log), ConfigMapQuery(namespace), Create(ConfigMap, namespace, body)).calls
    ensures st == IfAbsentRun(cp.oracle, old(cp.log), ConfigMapQuery(namespace), Create(ConfigMap, namespace, body)).status
  {
    st := IfAbsent(cp, ConfigMapQuery(namespace), Create(ConfigMap, namespace, body));
  }

  /** `create_svc`. */
  method CreateService(cp: ControlPlane, namespace: string, name: string, body: Manifest) returns (st: Status)
    requires cp.Valid()
    modifies cp
    ensures cp.Valid()
    ensures cp.log == old(cp.log) + IfAbsentRun(cp.oracle, old(cp.log), ServiceQuery(namespace, name), Create(Service, namespace, body)).calls
    ensures st == IfAbsentRun(cp.oracle, old(cp.log), ServiceQuery(namespace, name), Create(Service, namespace, body)).status
  {
    st := IfAbsent(cp, ServiceQuery(namespace, name), Create(Service, namespace, body));
  }

  /** `create_daemonset`: the template gets the version only once the list has raised. */
  method CreateDaemonSet(cp: ControlPlane, namespace: string, name: string, template: Manifest, version: string)
    returns (st: Status)
    requires cp.Valid() && WellShaped(template)
    modifies cp
    ensures cp.Valid()
    ensures cp.log == old(cp.log) + IfAbsentRun(cp.oracle, old(cp.log), DaemonSetQuery(namespace, name), DaemonSetCreate(namespace, template, version)).calls
    ensures st == IfAbsentRun(cp.oracle, old(cp.log), DaemonSetQuery(namespace, name), DaemonSetCreate(namespace, template, version)).status
  {
    var r := cp.Request(DaemonSetQuery(namespace, name));
    st := Ok;
    if !r.Response? {
      var body := SetVersionInSpec(template, version);
      st := Submit(cp, Create(DaemonSet, namespace, body));
    }
  }

  /** `deploy_qmgmt_pod`: create the management pod if the list raised; no readiness wait. */
  method DeployQmgmtPod(cp: ControlPlane, namespace: string, template: Manifest, version: string)
    returns (st: Status)
    requires cp.Valid() && WellShaped(template)
    modifies cp
    ensures cp.Valid()
    ensures cp.log == old(cp.log) + IfAbsentRun(cp.oracle, old(cp.log), QmgmtQuery(namespace), QmgmtCreate(namespace, template, version)).calls
    ensures st == IfAbsentRun(cp.oracle, old(cp.log), QmgmtQuery(namespace), QmgmtCreate(namespace, template, version)).status
  {
    var r := cp.Request(QmgmtQuery(namespace));
    st := Ok;
    if !r.Response? {
      var body := SetVersionInSpec(template, version);
      st := Submit(cp, Create(Pod, namespace, body));
    }
  }

  /** The filtered node list of `label_node`: node `node` carrying `key=value`. */
  function NodeQuery(node: string, key: string, value: string): Call {
    List(Node, "", Selector(Some(node), Some((key, value))))
  }

  /** The patch of `label_node`. */
  function LabelCall(node: string, key: string, value: string): Call {
    PatchNode(node, JsonPatch.LabelPatch(key, value))
  }

  /** A call `label_node(_, key, value)` issues, and the node it is about. */
  predicate IsLabelCall(c: Call, key: string, value: string) {
    || (c.List? && c.resource == Node && c.namespace == "" && c.selector.byName.Some?
        && c.selector.byLabel == Some((key, value)))
    || (c.PatchNode? && c.patch == JsonPatch.LabelPatch(key, value))
  }

  function LabelTarget(c: Call): string
    requires c.List? ==> c.selector.byName.Some?
    requires !c.Create?
  {
    if c.List? then c.selector.byName.value else c.node
  }

  /** The nodes the filtered node lists among `calls` ask about, in order. */
  function QueriedNodes(calls: seq<Call>): seq<string>
    decreases |calls|
  {
    if calls == [] then []
    else
      var c := calls[0];
      (if c.List? && c.resource == Node && c.selector.byName.Some? then [c.selector.byName.value] else [])
      + QueriedNodes(calls[1..])
  }

  lemma {:induction false} QueriedNodesAppend(a: seq<Call>, b: seq<Call>)
    ensures QueriedNodes(a + b) == QueriedNodes(a) + QueriedNodes(b)
    decreases |a|
  {
    if a == [] {
      assert a + b == b;
    } else {
      assert (a + b)[1..] == a[1..] + b;
      QueriedNodesAppend(a[1..], b);
    }
  }

  /** `label_node(node, key, value)`. */
  function LabelNodeRun(o: Oracle, log: seq<Call>, node: string, key: string, value: string): Run {
    IfAbsentRun(o, log, NodeQuery(node, key, value), LabelCall(node, key, value))
  }

  /**
   * What `label_node(node, key, value)` does to the objects: nothing when the
   * filtered node list answered or the patch raised. When the list raised and the
   * patch got a response, a node that exists has its label `key` set to `value`
   * (for a key with no '/' or '~') and nothing else changes.
   */
  lemma LabelNodeEffect(s: Store, o: Oracle, log: seq<Call>, node: string, key: string, value: string)
    ensures var q := NodeQuery(node, key, value); var patch := LabelCall(node, key, value);
      var before := Replay(s, o, log);
      var after := Replay(s, o, log + LabelNodeRun(o, log, node, key, value).calls);
      && (o(log, q).Response? || !o(log + [q], patch).Response? || node !in before.nodeLabels ==> after == before)
      && (!o(log, q).Response? && o(log + [q], patch).Response? && node in before.nodeLabels && JsonPatch.Plain(key) ==>
            after == before.(nodeLabels := before.nodeLabels[node := before.nodeLabels[node][key := value]]))
  {
    var q := NodeQuery(node, key, value);
    var patch := LabelCall(node, key, value);
    var before := Replay(s, o, log);
    IfAbsentEffect(s, o, log, q, patch);
    var reply := o(log + [q], patch);
    if !o(log, q).Response? && reply.Response? && node in before.nodeLabels && JsonPatch.Plain(key) {
      LabelPatchEffect(before, node, key, value, reply.items);
    }
  }

  /**
   * The deployer's own role labels: once `label_node` has patched an existing
   * node, that node carries `key=true`, and no other node or object changed.
   */
  lemma RoleLabelEffect(s: Store, o: Oracle, log: seq<Call>, node: string, key: string)
    requires key in {RegistryKey, MetadataKey, DataKey, ClientKey}
    ensures var q := NodeQuery(node, key, LabelValue); var patch := LabelCall(node, key, LabelValue);
      var before := Replay(s, o, log);
      var after := Replay(s, o, log + LabelNodeRun(o, log, node, key, LabelValue).calls);
      !o(log, q).Response? && o(log + [q], patch).Response? && node in before.nodeLabels ==>
        && after.nodeLabels == before.nodeLabels[node := before.nodeLabels[node][key := LabelValue]]
        && after.nodeLabels[node][key] == "true"
        && after == before.(nodeLabels := after.nodeLabels)
  {
    KeysArePlain();
    LabelNodeEffect(s, o, log, node, key, LabelValue);
  }

  /** `label_node` for each node of `nodes` in turn, stopping at the first exception that escapes. */
  function LabelNodesRun(o: Oracle, log: seq<Call>, nodes: seq<string>, key: string, value: string): Run
    decreases |nodes|
  {
    if nodes == [] then Run([], Ok)
    else
      var first := LabelNodeRun(o, log, nodes[0], key, value);
      if first.status.Fail? then first
      else Then(first.calls, LabelNodesRun(o, log + first.calls, nodes[1..], key, value))
  }

  /** The calls of one `label_node`: the filtered node list, then possibly the patch. */
  lemma LabelNodeCalls(o: Oracle, log: seq<Call>, node: string, key: string, value: string)
    ensures var calls := LabelNodeRun(o, log, node, key, value).calls;
      && (forall c :: c in calls ==> IsLabelCall(c, key, value) && LabelTarget(c) == node)
      && QueriedNodes(calls) == [node]
  {
    LabelNodeQueriesOnce(o, log, node, key, value);
  }

  /** One `label_node` asks about its node exactly once. */
  lemma LabelNodeQueriesOnce(o: Oracle, log: seq<Call>, node: string, key: string, value: string)
    ensures QueriedNodes(LabelNodeRun(o, log, node, key, value).calls) == [node]
  {
    var calls := LabelNodeRun(o, log, node, key, value).calls;
    assert calls[0] == NodeQuery(node, key, value);
    assert QueriedNodes(calls) == [node] + QueriedNodes(calls[1..]);
    if |calls| == 1 {
      assert calls[1..] == [];
    } else {
      var tail := calls[1..];
      assert tail[0].PatchNode? && tail[1..] == [];
      assert QueriedNodes(tail) == [] + QueriedNodes(tail[1..]);
    }
  }

  /**
   * Labelling a list of nodes issues nothing but label calls for `key=value` on
   * those nodes, and stops only at a patch that raised ValueError.
   */
  lemma {:induction false} LabelNodesOnlyLabel(o: Oracle, log: seq<Call>, nodes: seq<string>, key: string, value: string)
    ensures var r := LabelNodesRun(o, log, nodes, key, value);
      && (forall c :: c in r.calls ==> IsLabelCall(c, key, value) && LabelTarget(c) in nodes)
      && (r.status.Fail? ==> r.calls != [] && r.status == Fail(Crashed(UncaughtValueError)))
    decreases |nodes|
  {
    if nodes != [] {
      var first := LabelNodeRun(o, log, nodes[0], key, value);
      LabelNodeCalls(o, log, nodes[0], key, value);
      if first.status.Ok? {
        var rest := LabelNodesRun(o, log + first.calls, nodes[1..], key, value);
        LabelNodesOnlyLabel(o, log + first.calls, nodes[1..], key, value);
        forall c | c in first.calls + rest.calls
          ensures IsLabelCall(c, key, value) && LabelTarget(c) in nodes
        {
          if c !in first.calls {
            assert c in rest.calls && LabelTarget(c) in nodes[1..];
          }
        }
      }
    }
  }

  /**
   * Labelling a list of nodes asks about the nodes in list order, one after the
   * other, and reaches every node unless it stopped early.
   */
  lemma {:induction false} LabelNodesQueried(o: Oracle, log: seq<Call>, nodes: seq<string>, key: string, value: string)
    ensures var r := LabelNodesRun(o, log, nodes, key, value);
      && |QueriedNodes(r.calls)| <= |nodes|
      && QueriedNodes(r.calls) == nodes[..|QueriedNodes(r.calls)|]
      && (r.status.Ok? ==> QueriedNodes(r.calls) == nodes)
    decreases |nodes|
  {
    if nodes != [] {
      var first := LabelNodeRun(o, log, nodes[0], key, value);
      LabelNodeQueriesOnce(o, log, nodes[0], key, value);
      if first.status.Ok? {
        var rest := LabelNodesRun(o, log + first.calls, nodes[1..], key, value);
        LabelNodesQueried(o, log + first.calls, nodes[1..], key, value);
        QueriedNodesAppend(first.calls, rest.calls);
        PrefixStep(nodes, QueriedNodes(rest.calls));
      } else {
        assert nodes[..1] == [nodes[0]];
      }
    }
  }

  /** A prefix of the tail, with the head put back, is a prefix of the whole. */
  lemma PrefixStep(nodes: seq<string>, qs: seq<string>)
    requires nodes != [] && |qs| < |nodes| && qs == nodes[1..][..|qs|]
    ensures [nodes[0]] + qs == nodes[..|qs| + 1]
    ensures |qs| + 1 == |nodes| ==> [nodes[0]] + qs == nodes
  {
  }

  /**
   * Labelling a list of nodes asks about the nodes in list order, one after the
   * other, and issues nothing but label calls for `key=value` on those nodes; it
   * reaches every node unless a patch raised ValueError.
   */
  lemma LabelNodesInOrder(o: Oracle, log: seq<Call>, nodes: seq<string>, key: string, value: string)
    ensures var r := LabelNodesRun(o, log, nodes, key, value);
      && (forall c :: c in r.calls ==> IsLabelCall(c, key, value) && LabelTarget(c) in nodes)
      && |QueriedNodes(r.calls)| <= |nodes|
      && QueriedNodes(r.calls) == nodes[..|QueriedNodes(r.calls)|]
      && (r.status.Ok? ==> QueriedNodes(r.calls) == nodes)
      && (r.status.Fail? ==> r.calls != [] && r.status == Fail(Crashed(UncaughtValueError)))
  {
    LabelNodesOnlyLabel(o, log, nodes, key, value);
    LabelNodesQueried(o, log, nodes, key, value);
  }

  /** Where every list is answered, a read-then-write issues only its read, and succeeds. */
  lemma IfAbsentAnswered(o: Oracle, log: seq<Call>, read: Call, write: Call)
    requires read.List? && !write.List? && ListsAnswered(o)
    ensures IfAbsentRun(o, log, read, write) == Run([read], Ok)
  {
    assert o(log, read).Response?;
  }

  /**
   * Where every list is answered, labelling a list of nodes patches nothing: it
   * issues exactly one filtered node list per node, in order, and succeeds.
   */
  lemma {:induction false} LabelNodesAnswered(o: Oracle, log: seq<Call>, nodes: seq<string>, key: string, value: string)
    requires ListsAnswered(o)
    ensures var r := LabelNodesRun(o, log, nodes, key, value);
      && r.status.Ok? && ReadOnly(r.calls) && |r.calls| == |nodes|
      && forall i :: 0 <= i < |nodes| ==> r.calls[i] == NodeQuery(nodes[i], key, value)
    decreases |nodes|
  {
    if nodes != [] {
      IfAbsentAnswered(o, log, NodeQuery(nodes[0], key, value), LabelCall(nodes[0], key, value));
      var q := NodeQuery(nodes[0], key, value);
      var rest := LabelNodesRun(o, log + [q], nodes[1..], key, value);
      LabelNodesAnswered(o, log + [q], nodes[1..], key, value);
      assert LabelNodesRun(o, log, nodes, key, value).calls == [q] + rest.calls;
    }
  }

  /** `label_node`. */
  method LabelNode(cp: ControlPlane, node: string, key: string, value: string) returns (st: Status)
    requires cp.Valid()
    modifies cp
    ensures cp.Valid()
    ensures cp.log == old(cp.log) + LabelNodeRun(cp.oracle, old(cp.log), node, key, value).calls
    ensures st == LabelNodeRun(cp.oracle, old(cp.log), node, key, value).status
  {
    st := IfAbsent(cp, NodeQuery(node, key, value), LabelCall(node, key, value));
  }

  /** The `for node in ...: label_node(node, key, value)` loops of the deploy steps. */
  method LabelNodes(cp: ControlPlane, nodes: seq<string>, key: string, value: string) returns (st: Status)
    requires cp.Valid()
    modifies cp
    ensures cp.Valid()
    ensures cp.log == old(cp.log) + LabelNodesRun(cp.oracle, old(cp.log), nodes, key, value).calls
    ensures st == LabelNodesRun(cp.oracle, old(cp.log), nodes, key, value).status
  {
    ghost var done: seq<Call> := [];
    var i := 0;
    st := Ok;
    while i < |nodes|
      invariant 0 <= i <= |nodes| && cp.Valid()
      invariant cp.log == old(cp.log) + done
      invariant LabelNodesRun(cp.oracle, old(cp.log), nodes, key, value)
             == Then(done, LabelNodesRun(cp.oracle, cp.log, nodes[i..], key, value))
    {
      ghost var first := LabelNodeRun(cp.oracle, cp.log, nodes[i], key, value);
      ghost var rest := LabelNodesRun(cp.oracle, cp.log + first.calls, nodes[i + 1..], key, value);
      assert nodes[i..][0] == nodes[i] && nodes[i..][1..] == nodes[i + 1..];
      assert LabelNodesRun(cp.oracle, cp.log, nodes[i..], key, value)
          == if first.status.Fail? then first else Then(first.calls, rest);
      var s := LabelNode(cp, nodes[i], key, value);
      AppendAssoc(done, first.calls, rest.calls);
      AppendAssoc(old(cp.log), done, first.calls);
      done := done + first.calls;
      if s.Fail? {
        st := s;
        return;
      }
      i := i + 1;
    }
    assert nodes[i..] == [];
  }
}
