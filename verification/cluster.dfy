/**
 * The control plane the deployer talks to, reduced to what the deployer can
 * observe: the calls it issues, the replies it gets, and the objects that exist.
 * The Kubernetes client is replaced by an oracle: the reply to a call is any
 * function of the calls issued before it and of the call itself.
 */
module Cluster {
  import opened Wrappers
  import opened Manifests
  import JsonPatch

  datatype Resource = Namespace | ConfigMap | Service | DaemonSet | Deployment | Pod | Node

  /** A list call's field selector `metadata.name=<name>` and label selector `<key>=<value>`, each optional. */
  datatype Selector = Selector(byName: Option<string>, byLabel: Option<(string, string)>)

  /** A call into the control plane; `namespace` is "" for cluster-wide objects. */
  datatype Call =
    | List(resource: Resource, namespace: string, selector: Selector)
    | Create(resource: Resource, namespace: string, body: Manifest)
    | PatchNode(node: string, patch: seq<JsonPatch.PatchOp>)

  datatype ContainerStatus = ContainerStatus(name: string, ready: bool)

  /**
   * A listed object, by the fields the deployer reads: `metadata.name`,
   * `status.phase`, `status.container_statuses` (possibly None) and `spec.containers`.
   */
  datatype Object = Object(name: string, phase: string,
                           containerStatuses: Option<seq<ContainerStatus>>, containers: seq<Container>)

  /** A reply: a response with its items, or the call raised ApiException or ValueError. */
  datatype Reply = Response(items: seq<Object>) | ApiError | ValueErr

  type Oracle = (seq<Call>, Call) -> Reply

  /** The objects that exist, by name, and the labels of every node. */
  datatype Store = Store(namespaces: set<string>,
                         configMaps: map<string, Manifest>,
                         services: map<string, Manifest>,
                         daemonSets: map<string, Manifest>,
                         deployments: map<string, Manifest>,
                         pods: map<string, Manifest>,
                         nodeLabels: map<string, map<string, string>>)

  function Add(s: Store, resource: Resource, body: Manifest): Store {
    match resource
    case Namespace => s.(namespaces := s.namespaces + {body.name})
    case ConfigMap => s.(configMaps := s.configMaps[body.name := body])
    case Service => s.(services := s.services[body.name := body])
    case DaemonSet => s.(daemonSets := s.daemonSets[body.name := body])
    case Deployment => s.(deployments := s.deployments[body.name := body])
    case Pod => s.(pods := s.pods[body.name := body])
    case Node => s
  }

  /** `body` is stored under its name among the objects of `resource`; nodes are never created. */
  predicate Stored(s: Store, resource: Resource, body: Manifest) {
    match resource
    case Namespace => body.name in s.namespaces
    case ConfigMap => body.name in s.configMaps && s.configMaps[body.name] == body
    case Service => body.name in s.services && s.services[body.name] == body
    case DaemonSet => body.name in s.daemonSets && s.daemonSets[body.name] == body
    case Deployment => body.name in s.deployments && s.deployments[body.name] == body
    case Pod => body.name in s.pods && s.pods[body.name] == body
    case Node => false
  }

  /**
   * What a call does to the store given its reply: a create or patch that got a
   * response takes effect; lists and calls that raised change nothing.
   */
  function Apply(s: Store, c: Call, r: Reply): Store {
    if !r.Response? then s
    else
      match c
      case List(_, _, _) => s
      case Create(resource, _, body) => Add(s, resource, body)
      case PatchNode(node, ops) =>
        if node in s.nodeLabels
        then s.(nodeLabels := s.nodeLabels[node := JsonPatch.ApplyToLabels(s.nodeLabels[node], ops)])
        else s
  }

  /** The store after the calls of `log`, each answered by the oracle, starting from `s`. */
  function Replay(s: Store, o: Oracle, log: seq<Call>): Store
    decreases |log|
  {
    if log == [] then s
    else
      var n := |log| - 1;
      Apply(Replay(s, o, log[..n]), log[n], o(log[..n], log[n]))
  }

  /** A successful label patch sets that one label of that one node and touches nothing else. */
  lemma LabelPatchEffect(s: Store, node: string, key: string, value: string, items: seq<Object>)
    requires node in s.nodeLabels && JsonPatch.Plain(key)
    ensures Apply(s, PatchNode(node, JsonPatch.LabelPatch(key, value)), Response(items))
         == s.(nodeLabels := s.nodeLabels[node := s.nodeLabels[node][key := value]])
  {
    JsonPatch.LabelPatchSets(s.nodeLabels[node], key, value);
  }

  /** Every call of `calls` only reads. */
  predicate ReadOnly(calls: seq<Call>) {
    forall i :: 0 <= i < |calls| ==> calls[i].List?
  }

  lemma ReadOnlyConcat(a: seq<Call>, b: seq<Call>)
    requires ReadOnly(a) && ReadOnly(b)
    ensures ReadOnly(a + b)
  {
  }

  /** Every list call gets a response: everything the deployer looks for is reported as there. */
  ghost predicate ListsAnswered(o: Oracle) {
    forall log: seq<Call>, c: Call :: c.List? ==> o(log, c).Response?
  }

  /** Calls that only read leave the objects as they were. */
  lemma {:induction false} ReplayReadOnly(s: Store, o: Oracle, log: seq<Call>, calls: seq<Call>)
    requires ReadOnly(calls)
    ensures Replay(s, o, log + calls) == Replay(s, o, log)
    decreases |calls|
  {
    if calls == [] {
      assert log + calls == log;
    } else {
      var n := |calls| - 1;
      ReplayReadOnly(s, o, log, calls[..n]);
      var whole := log + calls;
      assert whole[..|whole| - 1] == log + calls[..n];
      assert whole[|whole| - 1] == calls[n] && calls[n].List?;
    }
  }

  /** The exceptions the deployer does not catch, each of which ends the run. */
  datatype Crash =
    | UncaughtValueError   // a create, a patch or the full node list raised ValueError
    | IndexOutOfRange      // `items[0]` of an empty pod list, `nodes[0]` of an empty node list
    | ItemsOfNone          // `api_response.items` after the full node list raised ApiException

  /** Why a run stops: a raised ValueError, one of the two TimeoutErrors, or a crash. */
  datatype Failure = NoBootstrapNode | RegistryTimeout | WebconsoleTimeout | Crashed(cause: Crash)

  datatype Status = Ok | Fail(failure: Failure)

  /** The calls a procedure issues, and how it ends. */
  datatype Run = Run(calls: seq<Call>, status: Status)

  /** `calls` issued first, then `r`. */
  function Then(calls: seq<Call>, r: Run): Run {
    Run(calls + r.calls, r.status)
  }

  function Repeat(c: Call, n: nat): (r: seq<Call>)
    ensures |r| == n && forall i :: 0 <= i < n ==> r[i] == c
  {
    seq(n, _ => c)
  }

  lemma AppendAssoc(a: seq<Call>, b: seq<Call>, c: seq<Call>)
    ensures (a + b) + c == a + (b + c)
  {
  }

  /** The control plane: its objects, the calls it has received, and how it answers them. */
  class ControlPlane {
    var store: Store
    var log: seq<Call>
    const oracle: Oracle
    ghost const initial: Store

    /** The objects are exactly what the calls received so far made of the initial ones. */
    ghost predicate Valid()
      reads this
    {
      store == Replay(initial, oracle, log)
    }

    constructor (s: Store, o: Oracle)
      ensures Valid() && store == s && log == [] && oracle == o
    {
      store, log, oracle, initial := s, [], o, s;
    }

    /** One call of the Kubernetes client. */
    method Request(c: Call) returns (r: Reply)
      requires Valid()
      modifies this
      ensures Valid()
      ensures r == oracle(old(log), c)
      ensures log == old(log) + [c]
      ensures store == Apply(old(store), c, r)
    {
      r := oracle(log, c);
      assert (log + [c])[..|log|] == log;
      store := Apply(store, c, r);
      log := log + [c];
    }
  }
}
