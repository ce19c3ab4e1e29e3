/**
 * `deploy_registries`: the bootstrap registry must be seen running before the
 * other registry nodes are labelled.
 */
module Registry {
  import opened Wrappers
  import opened Cluster
  import opened Settings
  import opened Reconcile
  import opened Readiness

  /** The entries of `rs` that have (`bootstrap` true) or lack (false) the bootstrap key, in order. */
  function Filter(rs: seq<NodeEntry>, bootstrap: bool): (r: seq<NodeEntry>)
    ensures forall i :: 0 <= i < |r| ==> r[i].hasBootstrap == bootstrap
    decreases |rs|
  {
    if rs == [] then []
    else if rs[0].hasBootstrap == bootstrap then [rs[0]] + Filter(rs[1..], bootstrap)
    else Filter(rs[1..], bootstrap)
  }

  /** `[reg for reg in registries if 'bootstrap' in reg]` */
  function BootstrapEntries(rs: seq<NodeEntry>): seq<NodeEntry> {
    Filter(rs, true)
  }

  /** `[reg for reg in registries if 'bootstrap' not in reg]` */
  function Leftovers(rs: seq<NodeEntry>): seq<NodeEntry> {
    Filter(rs, false)
  }

  /** `s` interleaves `a` and `b`: each element of `s` goes to exactly one of them, order kept. */
  predicate Merge(s: seq<NodeEntry>, a: seq<NodeEntry>, b: seq<NodeEntry>)
    decreases |s|
  {
    if s == [] then a == [] && b == []
    else
      || (a != [] && a[0] == s[0] && Merge(s[1..], a[1..], b))
      || (b != [] && b[0] == s[0] && Merge(s[1..], a, b[1..]))
  }

  /**
   * The split loses, duplicates and reorders nothing: the registry list is an
   * interleaving of the bootstrap entries and the leftovers, which hold only
   * entries with and without the bootstrap key respectively.
   */
  lemma {:induction false} PartitionIsMerge(rs: seq<NodeEntry>)
    ensures Merge(rs, BootstrapEntries(rs), Leftovers(rs))
    ensures |BootstrapEntries(rs)| + |Leftovers(rs)| == |rs|
    decreases |rs|
  {
    if rs != [] {
      PartitionIsMerge(rs[1..]);
      if rs[0].hasBootstrap {
        assert BootstrapEntries(rs)[1..] == BootstrapEntries(rs[1..]);
      } else {
        assert Leftovers(rs)[1..] == Leftovers(rs[1..]);
      }
    }
  }

  /**
   * There is no bootstrap entry exactly when no entry has the key; otherwise the
   * bootstrap node is that of the first entry that has it.
   */
  lemma {:induction false} FirstBootstrapEntry(rs: seq<NodeEntry>)
    ensures BootstrapEntries(rs) == [] <==> forall i :: 0 <= i < |rs| ==> !rs[i].hasBootstrap
    ensures BootstrapEntries(rs) != [] ==>
      exists i :: 0 <= i < |rs| && rs[i].hasBootstrap && BootstrapEntries(rs)[0] == rs[i]
                  && forall j :: 0 <= j < i ==> !rs[j].hasBootstrap
    decreases |rs|
  {
    if rs != [] && !rs[0].hasBootstrap {
      FirstBootstrapEntry(rs[1..]);
      if BootstrapEntries(rs) != [] {
        var k :| 0 <= k < |rs[1..]| && rs[1..][k].hasBootstrap && BootstrapEntries(rs[1..])[0] == rs[1..][k]
                 && forall j :: 0 <= j < k ==> !rs[1..][j].hasBootstrap;
        assert rs[k + 1] == rs[1..][k];
        forall j | 0 <= j < k + 1
          ensures !rs[j].hasBootstrap
        {
          if j > 0 {
            assert rs[j] == rs[1..][j - 1];
          }
        }
      } else {
        forall i | 0 <= i < |rs|
          ensures !rs[i].hasBootstrap
        {
          if i > 0 {
            assert rs[i] == rs[1..][i - 1];
          }
        }
      }
    }
  }

  function RegistryPods(namespace: string): Call {
    List(Pod, namespace, ByRole("registry"))
  }

  /** The calls of `deploy_registries` by phase, and how it ends. */
  datatype Phases = Phases(probe: seq<Call>, boot: seq<Call>, wait: seq<Call>, leftovers: seq<Call>, status: Status)

  /**
   * What follows the probe and the bootstrap labelling, from `log`: the wait,
   * unless the first pod was already `running`, then the leftover labels.
   */
  function FinishPhases(o: Oracle, log: seq<Call>, q: Call, running: bool, leftovers: seq<string>): Phases {
    var w := if running then Poll([], true, Ok) else WaitRun(o, log, q, MaxTries);
    if w.status.Fail? then Phases([], [], w.calls, [], w.status)
    else if !w.up then Phases([], [], w.calls, [], Fail(RegistryTimeout))
    else
      var rest := LabelNodesRun(o, log + w.calls, leftovers, RegistryKey, LabelValue);
      Phases([], [], w.calls, rest.calls, rest.status)
  }

  /**
   * The probe's aftermath, from `log` (which ends with the probe `q`): the
   * bootstrap labelling when the probe raised ValueError, whether the run goes
   * on, and whether the first registry pod was already Running.
   */
  datatype Start = Start(boot: seq<Call>, status: Status, running: bool)

  function StartPhases(o: Oracle, log: seq<Call>, first: Reply, bootNode: string): Start {
    if first.Response? && first.items == [] then Start([], Fail(Crashed(IndexOutOfRange)), false)
    else if first.ValueErr? then
      var boot := LabelNodeRun(o, log, bootNode, RegistryKey, LabelValue);
      Start(boot.calls, boot.status, false)
    else Start([], Ok, first.Response? && first.items[0].phase == "Running")
  }

  function RegistryPhases(o: Oracle, log: seq<Call>, namespace: string, rs: seq<NodeEntry>): Phases {
    if BootstrapEntries(rs) == [] then Phases([], [], [], [], Fail(NoBootstrapNode))
    else
      var q := RegistryPods(namespace);
      var start := StartPhases(o, log + [q], o(log, q), BootstrapEntries(rs)[0].node);
      if start.status.Fail? then Phases([q], start.boot, [], [], start.status)
      else
        var f := FinishPhases(o, log + [q] + start.boot, q, start.running, NodeNames(Leftovers(rs)));
        Phases([q], start.boot, f.wait, f.leftovers, f.status)
  }

  function RegistryRun(o: Oracle, log: seq<Call>, namespace: string, rs: seq<NodeEntry>): Run {
    var p := RegistryPhases(o, log, namespace, rs);
    Run(p.probe + p.boot + p.wait + p.leftovers, p.status)
  }

  /**
   * A registry list without a bootstrap entry is rejected with ValueError before
   * any call is made; with one, the run starts by listing the registry pods.
   */
  lemma RegistryNeedsBootstrap(o: Oracle, log: seq<Call>, namespace: string, rs: seq<NodeEntry>)
    ensures var p := RegistryPhases(o, log, namespace, rs);
      (p.status == Fail(NoBootstrapNode) <==> BootstrapEntries(rs) == [])
      && (BootstrapEntries(rs) == [] ==> RegistryRun(o, log, namespace, rs).calls == [])
      && (BootstrapEntries(rs) != [] ==> p.probe == [RegistryPods(namespace)])
  {
    if BootstrapEntries(rs) != [] {
      LeftoversAfterSuccess(o, log, namespace, rs);
    }
  }

  /**
   * The bootstrap node (the first bootstrap entry's) is labelled only when the
   * first pod list raised ValueError, and then it is labelled.
   */
  lemma BootstrapLabelOnValueError(o: Oracle, log: seq<Call>, namespace: string, rs: seq<NodeEntry>)
    requires BootstrapEntries(rs) != []
    ensures var p := RegistryPhases(o, log, namespace, rs); var q := RegistryPods(namespace);
      && (p.boot != [] <==> o(log, q).ValueErr?)
      && (o(log, q).ValueErr? ==>
            p.boot == LabelNodeRun(o, log + [q], BootstrapEntries(rs)[0].node, RegistryKey, LabelValue).calls)
  {
  }

  /**
   * The wait of the second half polls the one query, at most MaxTries times, and
   * is skipped when the pod was already `running`. A timeout comes only from a
   * wait that used every attempt without seeing the pod ready, and leaves the
   * leftovers unlabelled; any other failure is a crash.
   */
  lemma FinishWait(o: Oracle, log: seq<Call>, q: Call, running: bool, leftovers: seq<string>, f: Phases)
    requires f == FinishPhases(o, log, q, running, leftovers)
    ensures f.wait == Repeat(q, |f.wait|) && |f.wait| <= MaxTries
    ensures running ==> f.wait == []
    ensures f.status == Fail(RegistryTimeout) ==>
      && !running && f.leftovers == [] && |f.wait| == MaxTries
      && forall i :: 0 <= i < MaxTries ==> ProbePods(PollReply(o, log, q, i)) == NotReady
    ensures f.status.Fail? ==> f.status == Fail(RegistryTimeout) || f.status.failure.Crashed?
  {
    if running {
      LabelNodesInOrder(o, log + [], leftovers, RegistryKey, LabelValue);
      assert f.status != Fail(RegistryTimeout);
    } else {
      var w := WaitRun(o, log, q, MaxTries);
      assert f.wait == w.calls;
      WaitContract(o, log, q, MaxTries, w);
      if w.status.Fail? {
        assert f.status == w.status;
      } else if !w.up {
        WaitTimeout(o, log, q, MaxTries, w);
        assert f.status == Fail(RegistryTimeout) && f.leftovers == [];
      } else {
        LabelNodesInOrder(o, log + w.calls, leftovers, RegistryKey, LabelValue);
        assert f.status != Fail(RegistryTimeout);
      }
    }
  }

  /**
   * The leftovers are labelled only after success was seen: the pod was already
   * `running`, or the wait's last attempt saw it ready. Every call is a
   * `quobyte_registry=true` label call on a leftover node; the nodes asked about
   * are a prefix of the leftovers in order (even when a patch raised), and on
   * success all of them.
   */
  lemma FinishLeftovers(o: Oracle, log: seq<Call>, q: Call, running: bool, leftovers: seq<string>, f: Phases)
    requires f == FinishPhases(o, log, q, running, leftovers)
    ensures f.leftovers != [] || f.status.Ok? ==>
      running || (f.wait != [] && ProbePods(PollReply(o, log, q, |f.wait| - 1)) == Ready)
    ensures f.status.Ok? ==> QueriedNodes(f.leftovers) == leftovers
    ensures forall c :: c in f.leftovers ==> IsLabelCall(c, RegistryKey, LabelValue) && LabelTarget(c) in leftovers
    ensures |QueriedNodes(f.leftovers)| <= |leftovers|
    ensures QueriedNodes(f.leftovers) == leftovers[..|QueriedNodes(f.leftovers)|]
  {
    if running {
      LabelNodesInOrder(o, log + [], leftovers, RegistryKey, LabelValue);
    } else {
      var w := WaitRun(o, log, q, MaxTries);
      assert f.wait == w.calls;
      if w.status.Ok? && w.up {
        WaitContract(o, log, q, MaxTries, w);
        LabelNodesInOrder(o, log + w.calls, leftovers, RegistryKey, LabelValue);
      } else {
        assert f.leftovers == [] && f.status.Fail?;
        assert QueriedNodes(f.leftovers) == [] == leftovers[..0];
      }
    }
  }

  /**
   * Leftover registry nodes are labelled only after success was observed: either
   * the first pod list already showed the first pod Running (and no wait
   * happened), or the last attempt of the wait saw it fully ready. The leftover
   * calls are `quobyte_registry=true` label calls on leftover nodes, asked about
   * in config order up to where the run stopped. On timeout, the wait used all its
   * attempts and no leftover was labelled; on success they were all asked about.
   */
  lemma LeftoversAfterSuccess(o: Oracle, log: seq<Call>, namespace: string, rs: seq<NodeEntry>)
    requires BootstrapEntries(rs) != []
    ensures var p := RegistryPhases(o, log, namespace, rs); var q := RegistryPods(namespace);
      var waitLog := log + [q] + p.boot;
      && p.wait == Repeat(q, |p.wait|) && |p.wait| <= MaxTries
      && (p.leftovers != [] || p.status.Ok? ==>
            || (p.wait == [] && o(log, q).Response? && o(log, q).items[0].phase == "Running")
            || (p.wait != [] && ProbePods(PollReply(o, waitLog, q, |p.wait| - 1)) == Ready))
      && (p.status == Fail(RegistryTimeout) ==>
            && p.leftovers == [] && |p.wait| == MaxTries
            && forall i :: 0 <= i < MaxTries ==> ProbePods(PollReply(o, waitLog, q, i)) == NotReady)
      && (p.status.Ok? ==> QueriedNodes(p.leftovers) == NodeNames(Leftovers(rs)))
      && (forall c :: c in p.leftovers ==> IsLabelCall(c, RegistryKey, LabelValue) && LabelTarget(c) in NodeNames(Leftovers(rs)))
      && |QueriedNodes(p.leftovers)| <= |NodeNames(Leftovers(rs))|
      && QueriedNodes(p.leftovers) == NodeNames(Leftovers(rs))[..|QueriedNodes(p.leftovers)|]
      && (p.status.Fail? ==> p.status == Fail(RegistryTimeout) || p.status.failure.Crashed?)
  {
    var p := RegistryPhases(o, log, namespace, rs);
    var q := RegistryPods(namespace);
    var start := StartPhases(o, log + [q], o(log, q), BootstrapEntries(rs)[0].node);
    if start.status.Ok? {
      var waitLog := log + [q] + start.boot;
      var f := FinishPhases(o, waitLog, q, start.running, NodeNames(Leftovers(rs)));
      assert p == Phases([q], start.boot, f.wait, f.leftovers, f.status);
      assert start.running <==> o(log, q).Response? && o(log, q).items[0].phase == "Running";
      FinishWait(o, waitLog, q, start.running, NodeNames(Leftovers(rs)), f);
      FinishLeftovers(o, waitLog, q, start.running, NodeNames(Leftovers(rs)), f);
    } else {
      assert p == Phases([q], start.boot, [], [], start.status);
      assert QueriedNodes(p.leftovers) == [] == NodeNames(Leftovers(rs))[..0];
    }
  }

  /** Where every list is answered, the wait only polls and the leftovers are already labelled. */
  lemma FinishAnswered(o: Oracle, log: seq<Call>, q: Call, running: bool, leftovers: seq<string>, f: Phases)
    requires ListsAnswered(o) && q.List? && f == FinishPhases(o, log, q, running, leftovers)
    ensures ReadOnly(f.wait + f.leftovers)
    ensures f.status.Fail? ==> f.status.failure in {RegistryTimeout, Crashed(IndexOutOfRange)}
  {
    var w := if running then Poll([], true, Ok) else WaitRun(o, log, q, MaxTries);
    assert f.wait == w.calls;
    if !running {
      WaitContract(o, log, q, MaxTries, w);
    }
    assert ReadOnly(w.calls);
    if w.status.Ok? && w.up {
      LabelNodesAnswered(o, log + w.calls, leftovers, RegistryKey, LabelValue);
    } else {
      assert f.leftovers == [];
    }
    ReadOnlyConcat(f.wait, f.leftovers);
  }

  /**
   * Where every list is answered, the registries step only reads: the bootstrap
   * node is not labelled, the wait only polls, and the leftovers are already
   * labelled. It can still fail: for want of a bootstrap entry, on an empty first
   * pod list, or by timing out.
   */
  lemma RegistryAnswered(o: Oracle, log: seq<Call>, namespace: string, rs: seq<NodeEntry>)
    requires ListsAnswered(o)
    ensures var p := RegistryPhases(o, log, namespace, rs); var r := RegistryRun(o, log, namespace, rs);
      && p.boot == [] && ReadOnly(r.calls)
      && (r.status.Fail? ==> r.status.failure in {NoBootstrapNode, RegistryTimeout, Crashed(IndexOutOfRange)})
  {
    if BootstrapEntries(rs) != [] {
      var q := RegistryPods(namespace);
      assert o(log, q).Response?;
      var start := StartPhases(o, log + [q], o(log, q), BootstrapEntries(rs)[0].node);
      assert start.boot == [];
      RegistryRunSplit(o, log, namespace, rs);
      if start.status.Ok? {
        var f := FinishPhases(o, log + [q] + start.boot, q, start.running, NodeNames(Leftovers(rs)));
        FinishAnswered(o, log + [q] + start.boot, q, start.running, NodeNames(Leftovers(rs)), f);
        ReadOnlyConcat([q] + start.boot, f.wait + f.leftovers);
      }
    }
  }

  /** The wait for the bootstrap registry and the labelling of the others. */
  method FinishRegistries(cp: ControlPlane, namespace: string, running: bool, leftovers: seq<string>)
    returns (st: Status)
    requires cp.Valid()
    modifies cp
    ensures cp.Valid()
    ensures var f := FinishPhases(cp.oracle, old(cp.log), RegistryPods(namespace), running, leftovers);
      cp.log == old(cp.log) + f.wait + f.leftovers && st == f.status
  {
    ghost var q := RegistryPods(namespace);
    ghost var w := if running then Poll([], true, Ok) else WaitRun(cp.oracle, cp.log, q, MaxTries);
    var success := running;
    if !running {
      var up, s := WaitForRunningPod(cp, namespace, ByRole("registry"));
      if s.Fail? {
        return s;
      }
      success := up;
    } else {
      assert cp.log == old(cp.log) + w.calls;
    }
    if !success {
      return Fail(RegistryTimeout);
    }
    st := LabelNodes(cp, leftovers, RegistryKey, LabelValue);
  }

  /** The first registry pod list, and the bootstrap labelling when it raised ValueError. */
  method StartRegistries(cp: ControlPlane, namespace: string, bootstrapNode: string)
    returns (running: bool, st: Status)
    requires cp.Valid()
    modifies cp
    ensures cp.Valid()
    ensures var q := RegistryPods(namespace);
      var s := StartPhases(cp.oracle, old(cp.log) + [q], cp.oracle(old(cp.log), q), bootstrapNode);
      cp.log == old(cp.log) + [q] + s.boot && st == s.status && running == s.running
  {
    running := false;
    st := Ok;
    var r := cp.Request(RegistryPods(namespace));
    if r.Response? {
      if r.items == [] {
        return false, Fail(Crashed(IndexOutOfRange));
      }
      running := r.items[0].phase == "Running";
    } else if r.ValueErr? {
      st := LabelNode(cp, bootstrapNode, RegistryKey, LabelValue);
    }
  }

  lemma Regroup(a: seq<Call>, b: seq<Call>, c: seq<Call>, d: seq<Call>, e: seq<Call>)
    ensures a + b + c + d + e == a + (b + c + (d + e))
  {
  }

  /** `RegistryRun` in terms of its two halves, once a bootstrap node is known. */
  lemma RegistryRunSplit(o: Oracle, log: seq<Call>, namespace: string, rs: seq<NodeEntry>)
    requires BootstrapEntries(rs) != []
    ensures var q := RegistryPods(namespace);
      var start := StartPhases(o, log + [q], o(log, q), BootstrapEntries(rs)[0].node);
      var r := RegistryRun(o, log, namespace, rs);
      && (start.status.Fail? ==> r == Run([q] + start.boot, start.status))
      && (start.status.Ok? ==>
            var f := FinishPhases(o, log + [q] + start.boot, q, start.running, NodeNames(Leftovers(rs)));
            r == Run([q] + start.boot + (f.wait + f.leftovers), f.status))
  {
    var q := RegistryPods(namespace);
    var start := StartPhases(o, log + [q], o(log, q), BootstrapEntries(rs)[0].node);
    if start.status.Ok? {
      var f := FinishPhases(o, log + [q] + start.boot, q, start.running, NodeNames(Leftovers(rs)));
      AppendAssoc([q] + start.boot, f.wait, f.leftovers);
    }
  }

  /** `deploy_registries(namespace, registries)`. */
  method DeployRegistries(cp: ControlPlane, namespace: string, registries: seq<NodeEntry>) returns (st: Status)
    requires cp.Valid()
    modifies cp
    ensures cp.Valid()
    ensures var r := RegistryRun(cp.oracle, old(cp.log), namespace, registries);
      cp.log == old(cp.log) + r.calls && st == r.status
  {
    var bootstrapNodes := BootstrapEntries(registries);
    var leftovers := Leftovers(registries);
    if |bootstrapNodes| == 0 {
      return Fail(NoBootstrapNode);
    }
    var bootstrapNode := bootstrapNodes[0].node;
    RegistryRunSplit(cp.oracle, cp.log, namespace, registries);
    var running, s := StartRegistries(cp, namespace, bootstrapNode);
    if s.Fail? {
      return s;
    }
    ghost var q := RegistryPods(namespace);
    ghost var start := StartPhases(cp.oracle, old(cp.log) + [q], cp.oracle(old(cp.log), q), bootstrapNode);
    st := FinishRegistries(cp, namespace, running, NodeNames(leftovers));
    ghost var f := FinishPhases(cp.oracle, old(cp.log) + [q] + start.boot, q, running, NodeNames(leftovers));
    Regroup(old(cp.log), [q], start.boot, f.wait, f.leftovers);
  }
}
