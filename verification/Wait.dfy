// cmd/rotatecerts/wait.go: polling until a condition was met often enough, and the conditions.
module Wait {

  // What one call of the poll closure finds.
  datatype Poll = ListError | Unmet | Met

  function CountMet(polls: seq<Poll>): nat {
    if polls == [] then 0 else CountMet(polls[..|polls| - 1]) + (if polls[|polls| - 1] == Met then 1 else 0)
  }

  function AtLeastOne(n: int): nat {
    if n < 1 then 1 else n
  }

  // After k polls, none of which failed to list, the last one met the condition for the
  // needed time; the earlier successes need not be consecutive.
  ghost predicate SucceedsAt(polls: seq<Poll>, needed: int, k: nat) {
    && 0 < k <= |polls| && polls[k - 1] == Met
    && ListError !in polls[..k]
    && CountMet(polls[..k]) == AtLeastOne(needed)
  }

  ghost predicate Succeeds(polls: seq<Poll>, needed: int) {
    exists k: nat :: SucceedsAt(polls, needed, k)
  }

  lemma {:induction false} CountMonotone(polls: seq<Poll>, i: nat, j: nat)
    requires i <= j <= |polls|
    ensures CountMet(polls[..i]) <= CountMet(polls[..j])
    decreases j
  {
    if i < j {
      assert polls[..j][..j - 1] == polls[..j - 1];
      CountMonotone(polls, i, j - 1);
    }
  }

  lemma CountNext(polls: seq<Poll>, i: nat)
    requires i < |polls|
    ensures CountMet(polls[..i + 1]) == CountMet(polls[..i]) + (if polls[i] == Met then 1 else 0)
  {
    assert polls[..i + 1][..i] == polls[..i];
  }

  // A list error, or too few successes so far, decides about all later ends.
  lemma NoSuccess(polls: seq<Poll>, needed: int, n: nat)
    requires n <= |polls| && CountMet(polls[..n]) < AtLeastOne(needed)
    requires n == |polls| || polls[n] == ListError
    ensures !Succeeds(polls, needed)
  {
    forall k: nat
      ensures !SucceedsAt(polls, needed, k)
    {
      if 0 < k <= n {
        CountMonotone(polls, k, n);
      } else if n < k <= |polls| {
        assert polls[..k][n] == ListError;
      }
    }
  }

  // waitForPodsCondition, waitForDaemonSetCondition and waitForDeploymentCondition.  The
  // closure is called until it is done or fails, or until the deadline after the given polls.
  method WaitForPodsCondition(polls: seq<Poll>, successesNeeded: int) returns (ok: bool)
    ensures ok <==> Succeeds(polls, successesNeeded)
  {
    var listErr, condErr, pollErr := false, false, true;
    var successesCount := 0;
    var n := 0;
    while n < |polls|
      invariant 0 <= n <= |polls|
      invariant ListError !in polls[..n] && successesCount == CountMet(polls[..n]) < AtLeastOne(successesNeeded)
      invariant !listErr && pollErr
    {
      CountNext(polls, n);
      if polls[n] == ListError {
        listErr := true;
        break;
      }
      condErr := polls[n] == Unmet;
      if !condErr {
        successesCount := successesCount + 1;
        if successesCount >= successesNeeded {
          pollErr := false;
          break;
        }
      }
      n := n + 1;
    }
    if pollErr {
      assert polls[..|polls|] == polls;
      NoSuccess(polls, successesNeeded, n);
    } else {
      assert SucceedsAt(polls, successesNeeded, n + 1);
    }
    if listErr {
      return false;
    }
    if condErr {
      return false;
    }
    return !pollErr;
  }

  // waitForNodesCondition keeps no error but the one of the poll loop.
  method WaitForNodesCondition(polls: seq<Poll>, successesNeeded: int) returns (ok: bool)
    ensures ok <==> Succeeds(polls, successesNeeded)
  {
    var successesCount := 0;
    for n := 0 to |polls|
      invariant ListError !in polls[..n] && successesCount == CountMet(polls[..n]) < AtLeastOne(successesNeeded)
    {
      CountNext(polls, n);
      if polls[n] == ListError {
        NoSuccess(polls, successesNeeded, n);
        return false;
      }
      if polls[n] == Met {
        successesCount := successesCount + 1;
        if successesCount >= successesNeeded {
          assert SucceedsAt(polls, successesNeeded, n + 1);
          return true;
        }
      }
    }
    NoSuccess(polls, successesNeeded, |polls|);
    return false;
  }

  // ---- The conditions ----

  datatype Node = Node(name: string, ready: bool)

  // Every required node is listed, and ready wherever it is listed.
  predicate NodeReady(name: string, nodes: seq<Node>) {
    && (exists i :: 0 <= i < |nodes| && nodes[i].name == name)
    && (forall i :: 0 <= i < |nodes| && nodes[i].name == name ==> nodes[i].ready)
  }

  method AllNodesReadyCondition(requiredNodes: seq<string>, nodes: seq<Node>) returns (ok: bool)
    ensures ok <==> forall name :: name in requiredNodes ==> NodeReady(name, nodes)
  {
    var requiredReady: map<string, bool> := map[];
    for n := 0 to |requiredNodes|
      invariant forall name :: name in requiredReady <==> name in requiredNodes[..n]
      invariant forall name :: name in requiredReady ==> !requiredReady[name]
    {
      requiredReady := requiredReady[requiredNodes[n] := false];
    }
    for n := 0 to |nodes|
      invariant forall name :: name in requiredReady <==> name in requiredNodes
      invariant forall name :: name in requiredReady ==>
                  (requiredReady[name] <==> exists i :: 0 <= i < n && nodes[i].name == name)
      invariant forall i :: 0 <= i < n && nodes[i].name in requiredReady ==> nodes[i].ready
    {
      if nodes[n].name !in requiredReady {
        continue;
      }
      if !nodes[n].ready {
        assert !NodeReady(nodes[n].name, nodes);
        return false;
      }
      requiredReady := requiredReady[nodes[n].name := true];
    }
    var todo := requiredReady.Keys;
    while todo != {}
      invariant todo <= requiredReady.Keys
      invariant forall name :: name in requiredReady.Keys - todo ==> requiredReady[name]
      decreases |todo|
    {
      var name :| name in todo;
      todo := todo - {name};
      if !requiredReady[name] {
        assert !NodeReady(name, nodes);
        return false;
      }
    }
    return true;
  }

  datatype Container = Container(running: bool, ready: bool)

  datatype Pod = Pod(name: string, running: bool, containers: seq<Container>) {
    predicate Ready() {
      running && forall i :: 0 <= i < |containers| ==> containers[i].running && containers[i].ready
    }
  }

  method PodReady(pod: Pod) returns (ready: bool)
    ensures ready <==> pod.Ready()
  {
    ready := pod.running;
    for i := 0 to |pod.containers|
      invariant ready <==> pod.running && forall k :: 0 <= k < i ==> pod.containers[k].running && pod.containers[k].ready
    {
      ready := ready && pod.containers[i].running && pod.containers[i].ready;
    }
  }

  // The pod at i is the last one listed under its name.
  predicate LastOf(name: string, pods: seq<Pod>, i: nat) {
    i < |pods| && pods[i].name == name && forall j :: i < j < |pods| ==> pods[j].name != name
  }

  // Unlike nodes, a pod listed twice counts as its last occurrence only.
  method AllExpectedPodsReadyCondition(expectedPods: seq<string>, pods: seq<Pod>) returns (ok: bool)
    ensures ok <==> forall name :: name in expectedPods ==> exists i: nat :: LastOf(name, pods, i) && pods[i].Ready()
  {
    var podReady: map<string, bool> := map[];
    for n := 0 to |expectedPods|
      invariant forall name :: name in podReady <==> name in expectedPods[..n]
      invariant forall name :: name in podReady ==> !podReady[name]
    {
      podReady := podReady[expectedPods[n] := false];
    }
    for n := 0 to |pods|
      invariant forall name :: name in podReady <==> name in expectedPods
      invariant forall name :: name in podReady ==>
                  (podReady[name] <==> exists i: nat :: LastOf(name, pods[..n], i) && pods[i].Ready())
    {
      LastAfter(pods, n, pods[..n + 1]);
      if pods[n].name !in podReady {
        continue;
      }
      var ready := PodReady(pods[n]);
      podReady := podReady[pods[n].name := ready];
    }
    assert pods[..|pods|] == pods;
    var podsNotReady: seq<string> := [];
    var todo := podReady.Keys;
    while todo != {}
      invariant todo <= podReady.Keys
      invariant forall name :: name in podsNotReady <==> name in podReady.Keys - todo && !podReady[name]
      decreases |todo|
    {
      var name :| name in todo;
      todo := todo - {name};
      if !podReady[name] {
        podsNotReady := podsNotReady + [name];
      }
    }
    if |podsNotReady| != 0 {
      assert podsNotReady[0] in podsNotReady;
    }
    return |podsNotReady| == 0;
  }

  lemma LastAfter(pods: seq<Pod>, n: nat, longer: seq<Pod>)
    requires n < |pods| && longer == pods[..n + 1]
    ensures LastOf(pods[n].name, longer, n)
    ensures forall i: nat :: LastOf(pods[n].name, longer, i) ==> i == n
    ensures forall name, i: nat :: name != pods[n].name ==> (LastOf(name, longer, i) <==> LastOf(name, pods[..n], i))
  {
  }
}
