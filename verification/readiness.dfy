/**
 * `wait_for_running_pod`: a bounded poll of a pod list until its first pod is
 * Running with every declared container ready.
 */
module Readiness {
  import opened Wrappers
  import opened Cluster

  /**
   * The number of list attempts before giving up. The source sleeps 15 seconds
   * after each unsuccessful attempt, the last one included; time is not modelled.
   */
  const MaxTries: nat := 20

  /** What one attempt learns from its reply. */
  datatype Probe = Ready | NotReady | Broken

  function CountReady(statuses: seq<ContainerStatus>): (n: nat)
    ensures n <= |statuses|
    decreases |statuses|
  {
    if statuses == [] then 0
    else (if statuses[0].ready then 1 else 0) + CountReady(statuses[1..])
  }

  /**
   * One attempt: a list that raised, or a first pod without container statuses,
   * is not ready; a response with no pods at all raises IndexError on `items[0]`
   * (`Broken`); otherwise the first pod is ready when it is Running and its count
   * of ready containers equals its count of declared containers.
   */
  function ProbePods(r: Reply): Probe {
    if !r.Response? then NotReady
    else if r.items == [] then Broken
    else
      var pod := r.items[0];
      if pod.containerStatuses.None? then NotReady
      else if pod.phase == "Running" && CountReady(pod.containerStatuses.value) == |pod.containers| then Ready
      else NotReady
  }

  /**
   * Only a fully ready first pod counts: Running, with at least as many container
   * statuses as declared containers and exactly that many of them ready.
   */
  lemma ReadyMeansFullyReady(r: Reply)
    requires ProbePods(r) == Ready
    ensures r.Response? && r.items != [] && r.items[0].phase == "Running"
    ensures r.items[0].containerStatuses.Some?
    ensures |r.items[0].containers| == CountReady(r.items[0].containerStatuses.value) <= |r.items[0].containerStatuses.value|
  {
  }

  /** The outcome of a wait: its calls, whether the pod came up, and whether an exception escaped. */
  datatype Poll = Poll(calls: seq<Call>, up: bool, status: Status)

  /** The wait with `left` attempts remaining. */
  function WaitRun(o: Oracle, log: seq<Call>, q: Call, left: nat): Poll
    decreases left
  {
    if left == 0 then Poll([], false, Ok)
    else
      match ProbePods(o(log, q))
      case Ready => Poll([q], true, Ok)
      case Broken => Poll([q], false, Fail(Crashed(IndexOutOfRange)))
      case NotReady =>
        var rest := WaitRun(o, log + [q], q, left - 1);
        Poll([q] + rest.calls, rest.up, rest.status)
  }

  /** The reply to attempt `i` (from 0) of a wait that started after `log`. */
  function PollReply(o: Oracle, log: seq<Call>, q: Call, i: nat): Reply {
    o(log + Repeat(q, i), q)
  }

  /**
   * A wait with `left` attempts repeats the same list between once and `left`
   * times; every attempt but the last saw a pod that was not ready; it reports the
   * pod up exactly when the last attempt saw it ready, crashes exactly when the
   * last reply had no pods, and otherwise gives up only after all `left` attempts.
   */
  lemma {:induction false} WaitContract(o: Oracle, log: seq<Call>, q: Call, left: nat, p: Poll)
    requires left >= 1 && p == WaitRun(o, log, q, left)
    ensures 1 <= |p.calls| <= left
    ensures p.calls == Repeat(q, |p.calls|)
    ensures forall i :: 0 <= i < |p.calls| - 1 ==> ProbePods(PollReply(o, log, q, i)) == NotReady
    ensures p.up <==> ProbePods(PollReply(o, log, q, |p.calls| - 1)) == Ready
    ensures p.status.Fail? <==> ProbePods(PollReply(o, log, q, |p.calls| - 1)) == Broken
    ensures p.status.Fail? ==> p.status == Fail(Crashed(IndexOutOfRange))
    ensures !p.up && p.status.Ok? ==> |p.calls| == left
    decreases left
  {
    assert log + Repeat(q, 0) == log;
    if ProbePods(o(log, q)) == NotReady && left > 1 {
      var rest := WaitRun(o, log + [q], q, left - 1);
      WaitContract(o, log + [q], q, left - 1, rest);
      var m := |rest.calls|;
      assert p.calls == [q] + rest.calls;
      assert p.calls == Repeat(q, m + 1);
      forall i | 0 <= i <= m
        ensures PollReply(o, log, q, i + 1) == PollReply(o, log + [q], q, i)
      {
        assert log + Repeat(q, i + 1) == (log + [q]) + Repeat(q, i);
      }
      forall i | 0 <= i < m
        ensures ProbePods(PollReply(o, log, q, i)) == NotReady
      {
        if i > 0 {
          assert PollReply(o, log, q, i) == PollReply(o, log + [q], q, i - 1);
        }
      }
      assert PollReply(o, log, q, m) == PollReply(o, log + [q], q, m - 1);
    } else if ProbePods(o(log, q)) == NotReady {
      assert WaitRun(o, log + [q], q, 0).calls == [];
      assert p.calls == [q] == Repeat(q, 1);
    } else {
      assert p.calls == [q] == Repeat(q, 1);
    }
  }

  /** A wait that gave up did so after `left` attempts, none of which saw the pod ready. */
  lemma WaitTimeout(o: Oracle, log: seq<Call>, q: Call, left: nat, p: Poll)
    requires left >= 1 && p == WaitRun(o, log, q, left) && !p.up && p.status.Ok?
    ensures p.calls == Repeat(q, left)
    ensures forall i :: 0 <= i < left ==> ProbePods(PollReply(o, log, q, i)) == NotReady
  {
    WaitContract(o, log, q, left, p);
    var last := ProbePods(PollReply(o, log, q, left - 1));
    assert last != Ready && last != Broken;
    forall i | 0 <= i < left
      ensures ProbePods(PollReply(o, log, q, i)) == NotReady
    {
      if i == left - 1 {
        assert ProbePods(PollReply(o, log, q, i)) == last;
      }
    }
  }

  /** One attempt of a wait with attempts left, and the wait that follows it. */
  lemma WaitRunStep(o: Oracle, log: seq<Call>, q: Call, left: nat)
    requires left >= 1
    ensures ProbePods(o(log, q)) == Ready ==> WaitRun(o, log, q, left) == Poll([q], true, Ok)
    ensures ProbePods(o(log, q)) == Broken ==> WaitRun(o, log, q, left) == Poll([q], false, Fail(Crashed(IndexOutOfRange)))
    ensures ProbePods(o(log, q)) == NotReady ==>
      WaitRun(o, log, q, left) == Poll([q] + WaitRun(o, log + [q], q, left - 1).calls,
                                       WaitRun(o, log + [q], q, left - 1).up, WaitRun(o, log + [q], q, left - 1).status)
  {
  }

  /** `wait_for_running_pod(api, namespace, selector, _)`, returning True or False. */
  method WaitForRunningPod(cp: ControlPlane, namespace: string, selector: Selector) returns (up: bool, st: Status)
    requires cp.Valid()
    modifies cp
    ensures cp.Valid()
    ensures cp.log == old(cp.log) + WaitRun(cp.oracle, old(cp.log), List(Pod, namespace, selector), MaxTries).calls
    ensures up == WaitRun(cp.oracle, old(cp.log), List(Pod, namespace, selector), MaxTries).up
    ensures st == WaitRun(cp.oracle, old(cp.log), List(Pod, namespace, selector), MaxTries).status
  {
    var q := List(Pod, namespace, selector);
    ghost var done: seq<Call> := [];
    var tries := 0;
    while tries < MaxTries
      invariant 0 <= tries <= MaxTries && cp.Valid()
      invariant cp.log == old(cp.log) + done
      invariant var rest := WaitRun(cp.oracle, cp.log, q, MaxTries - tries);
        WaitRun(cp.oracle, old(cp.log), q, MaxTries) == Poll(done + rest.calls, rest.up, rest.status)
    {
      ghost var before := cp.log;
      ghost var rest := WaitRun(cp.oracle, before + [q], q, MaxTries - tries - 1);
      var r := cp.Request(q);
      var probe := ProbePods(r);
      WaitRunStep(cp.oracle, before, q, MaxTries - tries);
      AppendAssoc(done, [q], rest.calls);
      AppendAssoc(old(cp.log), done, [q]);
      done := done + [q];
      if probe == Ready {
        assert WaitRun(cp.oracle, old(cp.log), q, MaxTries) == Poll(done, true, Ok);
        return true, Ok;
      } else if probe == Broken {
        assert WaitRun(cp.oracle, old(cp.log), q, MaxTries) == Poll(done, false, Fail(Crashed(IndexOutOfRange)));
        return false, Fail(Crashed(IndexOutOfRange));
      }
      tries := tries + 1;
    }
    assert WaitRun(cp.oracle, cp.log, q, 0) == Poll([], false, Ok);
    AppendAssoc(done, [], []);
    up, st := false, Ok;
  }
}
