// The availability-set part of `scale` in cmd/scale.go: VM indexes may have holes, scaling
// down deletes the highest indexes, scaling up deploys a template for a range of new ones.
module Scale {

  import opened Options

  // index is None when the name of a VM of the pool cannot be taken apart.
  datatype VM = VM(name: string, inPool: bool, index: Option<nat>)

  datatype Outcome = Done | Failed | Crashed

  ghost function IndexSet(vms: set<VM>): set<nat> {
    set v | v in vms && v.inPool && v.index.Some? :: v.index.value
  }

  // What Azure and the naming scheme guarantee: names are unique in the resource group, and
  // no two VMs of the pool share an index.
  ghost predicate WellNamed(vms: set<VM>) {
    && (forall v, w :: v in vms && w in vms && v.name == w.name ==> v == w)
    && (forall v, w :: v in vms && w in vms && v.inPool && w.inPool && v.index.Some? && v.index == w.index ==> v == w)
  }

  // ---- The indexes after a successful run ----

  ghost predicate IsMax(m: nat, s: set<nat>) {
    m in s && forall i :: i in s ==> i <= m
  }

  lemma {:induction false} MaxExists(s: set<nat>)
    requires s != {}
    ensures exists m :: IsMax(m, s)
  {
    var x :| x in s;
    if s == {x} {
      assert IsMax(x, s);
    } else {
      MaxExists(s - {x});
      var m :| IsMax(m, s - {x});
      assert forall i :: i in s ==> i == x || i in s - {x};
      assert IsMax(if x < m then m else x, s);
    }
  }

  ghost function Max(s: set<nat>): (m: nat)
    requires s != {}
    ensures IsMax(m, s)
  {
    MaxExists(s);
    var m :| IsMax(m, s);
    m
  }

  lemma MaxIs(m: nat, s: set<nat>)
    requires IsMax(m, s)
    ensures Max(s) == m
  {
  }

  ghost function Range(from: nat, count: nat): (r: set<nat>)
    ensures forall i: nat :: i in r <==> from <= i < from + count
    ensures |r| == count
  {
    if count == 0 then {} else Range(from, count - 1) + {from + count - 1}
  }

  // Too many: drop the highest.  Too few: continue above the highest.
  ghost function Scaled(s: set<nat>, desired: nat): set<nat>
    requires s != {}
    decreases |s|
  {
    if |s| > desired then
      var rest := s - {Max(s)};
      if rest == {} then {} else Scaled(rest, desired)
    else s + Range(Max(s) + 1, desired - |s|)
  }

  // A run ends with exactly the desired number of VMs.
  lemma {:induction false} ScaledSize(s: set<nat>, desired: nat)
    requires s != {}
    ensures |Scaled(s, desired)| == desired
    decreases |s|
  {
    if |s| > desired {
      if s - {Max(s)} != {} {
        ScaledSize(s - {Max(s)}, desired);
      }
    } else {
      assert s !! Range(Max(s) + 1, desired - |s|);
    }
  }

  // Scaling down keeps the lowest indexes, scaling up keeps all and only adds higher ones.
  lemma {:induction false} ScaledKeepsLow(s: set<nat>, desired: nat)
    requires s != {}
    ensures |s| >= desired ==> Scaled(s, desired) <= s
    ensures |s| <= desired ==> s <= Scaled(s, desired)
    ensures forall i, j :: i in Scaled(s, desired) && j in s && j !in Scaled(s, desired) ==> i < j
    ensures forall i, j :: i in s && j in Scaled(s, desired) && j !in s ==> i < j
    decreases |s|
  {
    if |s| > desired && s - {Max(s)} != {} {
      ScaledKeepsLow(s - {Max(s)}, desired);
    }
  }

  // Scaling up first changes nothing about where a later run ends up: the new indexes are the
  // first to go, and the range continues where it stopped.
  lemma {:induction false} ScaleUpLeavesNoTrace(s: set<nat>, up: nat, desired: nat)
    requires s != {} && up >= |s|
    ensures Scaled(s, up) != {}
    ensures Scaled(Scaled(s, up), desired) == Scaled(s, desired)
    decreases up
  {
    hide Scaled;
    if up == |s| {
      UpByNone(s);
    } else {
      var last := UpStep(s, up);
      ScaledSize(s, up);
      ScaledSize(s, up - 1);
      if desired < up {
        ScaleUpLeavesNoTrace(s, up - 1, desired);
        DropOne(Scaled(s, up), desired);
      } else {
        FurtherUp(s, up, desired);
      }
    }
  }

  lemma DropOne(t: set<nat>, desired: nat)
    requires |t| > desired && t - {Max(t)} != {}
    ensures Scaled(t, desired) == Scaled(t - {Max(t)}, desired)
  {
  }

  lemma FurtherUp(s: set<nat>, up: nat, desired: nat)
    requires s != {} && |s| < up <= desired
    ensures Scaled(s, up) != {} && Scaled(Scaled(s, up), desired) == Scaled(s, desired)
  {
    var last := UpStep(s, up);
    ScaledSize(s, up);
    RangeContinues(Max(s) + 1, up - |s|, desired - up);
    UpBy(s, up);
    UpBy(s, desired);
    UpBy(Scaled(s, up), desired);
  }

  lemma UpBy(s: set<nat>, up: nat)
    requires s != {} && up >= |s|
    ensures Scaled(s, up) == s + Range(Max(s) + 1, up - |s|)
  {
  }

  lemma UpByNone(s: set<nat>)
    requires s != {}
    ensures Scaled(s, |s|) == s
  {
    assert Range(Max(s) + 1, 0) == {};
  }

  // One VM more: one index more, the highest of all.
  lemma UpStep(s: set<nat>, up: nat) returns (last: nat)
    requires s != {} && up > |s|
    ensures last == Max(s) + (up - |s|)
    ensures Scaled(s, up) != {} && Max(Scaled(s, up)) == last
    ensures Scaled(s, up) - {last} == Scaled(s, up - 1)
  {
    hide Range, Max;
    last := Max(s) + (up - |s|);
    assert last in Range(Max(s) + 1, up - |s|);
    MaxIs(last, Scaled(s, up));
    assert Range(Max(s) + 1, up - |s|) - {last} == Range(Max(s) + 1, up - 1 - |s|);
  }

  lemma RangeContinues(from: nat, a: nat, b: nat)
    ensures Range(from, a) + Range(from + a, b) == Range(from, a + b)
  {
  }

  // The indexes after a whole sequence of successful runs.
  ghost function AfterRuns(s: set<nat>, desired: seq<nat>): set<nat>
    requires s != {} && forall i :: 0 <= i < |desired| ==> desired[i] > 0
    decreases desired
  {
    if desired == [] then s
    else
      ScaledSize(s, desired[0]);
      AfterRuns(Scaled(s, desired[0]), desired[1..])
  }

  // The number of VMs is the last desired count; VMs whose index is below every dip survive.
  lemma {:induction false} RunsEndAsDesired(s: set<nat>, desired: seq<nat>, low: nat)
    requires s != {} && desired != [] && forall i :: 0 <= i < |desired| ==> desired[i] > 0
    requires low <= |s| && forall i :: 0 <= i < |desired| ==> low <= desired[i]
    ensures |AfterRuns(s, desired)| == desired[|desired| - 1]
    ensures low > 0 ==> Scaled(s, low) <= AfterRuns(s, desired)
    decreases desired
  {
    var t := Scaled(s, desired[0]);
    ScaledSize(s, desired[0]);
    if low > 0 {
      LowestStay(s, desired[0], low);
      ScaledSize(t, low);
      ScaledKeepsLow(t, low);
    }
    if |desired| > 1 {
      RunsEndAsDesired(t, desired[1..], low);
    }
  }

  // Scaling to any larger count keeps the `low` lowest indexes.
  lemma {:induction false} LowestStay(s: set<nat>, desired: nat, low: nat)
    requires s != {} && 0 < low <= |s| && low <= desired
    ensures Scaled(s, desired) != {}
    ensures Scaled(Scaled(s, desired), low) == Scaled(s, low)
    decreases |s|
  {
    ScaledSize(s, desired);
    if desired >= |s| {
      ScaleUpLeavesNoTrace(s, desired, low);
    } else {
      LowestStay(s - {Max(s)}, desired, low);
    }
  }

  // ---- The code ----

  // Our part of the resource group; the environment may fail any call.
  class ResourceGroup {
    var vms: set<VM>
    var drained: set<string>      // nodes a drain of the present run reported success for
    var savedCount: int           // the pool's count in the API model file
    var failed: bool              // whether a call of the present run has failed
    var listed: nat               // how often the VMs were listed in the present run

    constructor (vms: set<VM>, count: int)
      ensures this.vms == vms && savedCount == count && drained == {} && !failed && listed == 0
    {
      this.vms, savedCount, drained, failed, listed := vms, count, {}, false, 0;
    }

    // A call that changes nothing here.
    method Call() returns (ok: bool)
      modifies `failed
      ensures failed <==> old(failed) || !ok
    {
      ok := *;
      failed := failed || !ok;
    }

    // ListVirtualMachines: in any order
    method ListVirtualMachines() returns (ok: bool, list: seq<VM>)
      modifies `failed, `listed
      ensures listed == old(listed) + 1 && (failed <==> old(failed) || !ok)
      ensures ok ==> forall v :: v in list <==> v in vms
      ensures forall i, j :: 0 <= i < j < |list| ==> list[i] != list[j]
    {
      listed := listed + 1;
      ok := Call();
      list := [];
      var todo := vms;
      while todo != {}
        invariant todo <= vms
        invariant forall i, j :: 0 <= i < j < |list| ==> list[i] != list[j]
        invariant forall v :: v in list <==> v in vms - todo
        decreases |todo|
      {
        var v :| v in todo;
        assert v !in list;
        todo := todo - {v};
        list := list + [v];
      }
    }

    // drainNodes, whose interleavings module Drain treats: nil only if all drained
    method DrainNodes(names: seq<string>) returns (ok: bool)
      modifies `drained, `failed
      ensures failed <==> old(failed) || !ok
      ensures ok ==> forall name :: name in names ==> name in drained
      ensures old(drained) <= drained
      ensures forall name :: name in drained && name !in old(drained) ==> name in names
    {
      ok := true;
      for i := 0 to |names|
        invariant failed == old(failed)
        invariant ok ==> forall name :: name in names[..i] ==> name in drained
        invariant old(drained) <= drained
        invariant forall name :: name in drained && name !in old(drained) ==> name in names
      {
        var success: bool := *;
        if success {
          drained := drained + {names[i]};
        }
        ok := ok && success;
      }
      failed := failed || !ok;
    }

    // operations.ScaleDownVMs: tries to delete every VM, true if all deletions succeeded
    method ScaleDownVMs(names: seq<string>) returns (ok: bool)
      modifies `vms, `failed
      ensures failed <==> old(failed) || !ok
      ensures vms <= old(vms)
      ensures forall v :: v in old(vms) && v !in vms ==> v.name in names
      ensures ok ==> forall v :: v in vms ==> v.name !in names
    {
      ok := true;
      for i := 0 to |names|
        invariant failed == old(failed) && vms <= old(vms)
        invariant forall v :: v in old(vms) && v !in vms ==> v.name in names
        invariant ok ==> forall v :: v in vms ==> v.name !in names[..i]
      {
        var success: bool := *;
        if success {
          vms := set v | v in vms && v.name != names[i];
        }
        ok := ok && success;
      }
      failed := failed || !ok;
    }

    // DeployTemplate with the pool's count and offset: creates the VMs offset, ..., count - 1
    // that do not exist yet, or some of them when it fails.
    method DeployTemplate(offset: nat, count: int) returns (ok: bool)
      modifies `vms, `failed
      requires WellNamed(vms)
      requires forall i :: i in IndexSet(vms) ==> i < offset
      ensures failed <==> old(failed) || !ok
      ensures WellNamed(vms) && old(vms) <= vms
      ensures forall v :: v in vms && v !in old(vms) ==> v.inPool && v.index.Some? && offset <= v.index.value < count
      ensures ok ==> forall i: nat :: offset <= i < count ==> i in IndexSet(vms)
    {
      ok := true;
      var i: nat := offset;
      while i < count
        invariant failed == old(failed) && offset <= i && (i <= count || i == offset)
        invariant WellNamed(vms) && old(vms) <= vms
        invariant forall v :: v in vms && v !in old(vms) ==> v.inPool && v.index.Some? && offset <= v.index.value < i
        invariant forall j :: j in IndexSet(vms) ==> j < i
        invariant ok ==> forall j: nat :: offset <= j < i ==> j in IndexSet(vms)
        decreases count - i
      {
        var success: bool := *;
        if success {
          var name: string := *;
          if forall v | v in vms :: v.name != name {
            AddedVM(vms, VM(name, true, Some(i)), i);
            vms := vms + {VM(name, true, Some(i))};
          } else {
            success := false;
          }
        }
        ok := ok && success;
        i := i + 1;
      }
      failed := failed || !ok;
    }
  }

  lemma AddedVM(vms: set<VM>, vm: VM, i: nat)
    requires WellNamed(vms) && vm.inPool && vm.index == Some(i)
    requires forall v :: v in vms ==> v.name != vm.name
    requires i !in IndexSet(vms)
    ensures WellNamed(vms + {vm}) && IndexSet(vms + {vm}) == IndexSet(vms) + {i}
  {
    forall v | v in vms && v.inPool && v.index.Some?
      ensures v.index.value in IndexSet(vms)
    {
    }
  }

  ghost predicate Sorted(ints: seq<nat>) {
    forall i, j :: 0 <= i < j < |ints| ==> ints[i] <= ints[j]
  }

  // sort.IntSlice.Sort
  method SortInts(ints: seq<nat>) returns (sorted: seq<nat>)
    ensures Sorted(sorted) && multiset(sorted) == multiset(ints)
  {
    hide Sorted;
    sorted := [];
    NothingSorted();
    for n := 0 to |ints|
      invariant Sorted(sorted) && multiset(sorted) == multiset(ints[..n])
    {
      sorted := Insert(sorted, ints[n]);
      assert ints[..n + 1] == ints[..n] + [ints[n]];
    }
    assert ints[..|ints|] == ints;
  }

  lemma NothingSorted()
    ensures Sorted([])
  {
  }

  method Insert(sorted: seq<nat>, x: nat) returns (r: seq<nat>)
    requires Sorted(sorted)
    ensures Sorted(r) && multiset(r) == multiset(sorted) + multiset{x}
  {
    var at := |sorted|;
    while at > 0 && sorted[at - 1] > x
      invariant 0 <= at <= |sorted|
      invariant forall j :: at <= j < |sorted| ==> x <= sorted[j]
    {
      at := at - 1;
    }
    r := sorted[..at] + [x] + sorted[at..];
    InsertedAt(sorted, x, at);
  }

  lemma InsertedAt(sorted: seq<nat>, x: nat, at: nat)
    requires Sorted(sorted) && at <= |sorted|
    requires forall j :: at <= j < |sorted| ==> x <= sorted[j]
    requires at > 0 ==> sorted[at - 1] <= x
    ensures Sorted(sorted[..at] + [x] + sorted[at..])
    ensures multiset(sorted[..at] + [x] + sorted[at..]) == multiset(sorted) + multiset{x}
  {
    InsertedElements(sorted, x, at);
    assert forall j :: 0 <= j < at ==> sorted[j] <= x;
  }

  lemma InsertedElements(ints: seq<nat>, x: nat, at: nat)
    requires at <= |ints|
    ensures multiset(ints[..at] + [x] + ints[at..]) == multiset(ints) + multiset{x}
  {
    assert ints == ints[..at] + ints[at..];
  }

  ghost function Listed(list: seq<VM>): set<VM> {
    set v | v in list
  }

  ghost function Elements(ints: seq<nat>): set<nat> {
    set i | i in ints
  }

  // sorted lists the set s in strictly ascending order.
  ghost predicate Ascending(sorted: seq<nat>, s: set<nat>) {
    (forall i, j :: 0 <= i < j < |sorted| ==> sorted[i] < sorted[j]) && Elements(sorted) == s && |sorted| == |s|
  }

  lemma SortedSet(sorted: seq<nat>, s: set<nat>)
    requires Sorted(sorted) && multiset(sorted) == multiset(s)
    ensures Ascending(sorted, s)
  {
    assert |sorted| == |multiset(sorted)| == |multiset(s)| == |s|;
    forall x
      ensures x in sorted <==> x in s
    {
      assert x in sorted <==> x in multiset(sorted);
      assert x in s <==> x in multiset(s);
    }
    forall i, j | 0 <= i < j < |sorted|
      ensures sorted[i] < sorted[j]
    {
      OccursTwice(sorted, i, j);
    }
  }

  lemma OccursTwice(ints: seq<nat>, i: nat, j: nat)
    requires i < j < |ints|
    ensures ints[i] == ints[j] ==> multiset(ints)[ints[i]] >= 2
  {
    assert ints == ints[..i] + [ints[i]] + ints[i + 1..j] + [ints[j]] + ints[j + 1..];
  }

  lemma ListsAll(sorted: seq<nat>, s: set<nat>)
    requires Ascending(sorted, s)
    ensures |sorted| == |s| && Elements(sorted) == s
  {
  }

  // Dropping the highest indexes keeps the first ones of the sorted list.
  lemma {:induction false} ScaledDown(sorted: seq<nat>, s: set<nat>, desired: nat)
    requires Ascending(sorted, s) && s != {} && desired <= |sorted|
    ensures Scaled(s, desired) == Elements(sorted[..desired])
    decreases |sorted|
  {
    hide Ascending, Max, Range;
    ListsAll(sorted, s);
    if desired == |sorted| {
      UpByNone(s);
      assert sorted[..desired] == sorted;
    } else {
      var init, last := sorted[..|sorted| - 1], sorted[|sorted| - 1];
      InitAscending(sorted, s);
      if s - {last} == {} {
        assert s == {last};
        assert |s| == 1;
        assert desired == 0;
      } else {
        ScaledDown(init, s - {last}, desired);
        assert init[..desired] == sorted[..desired];
      }
    }
  }

  lemma InitAscending(sorted: seq<nat>, s: set<nat>)
    requires Ascending(sorted, s) && s != {}
    ensures sorted != [] && Max(s) == sorted[|sorted| - 1]
    ensures Ascending(sorted[..|sorted| - 1], s - {Max(s)})
  {
    var init, last := sorted[..|sorted| - 1], sorted[|sorted| - 1];
    assert sorted == init + [last];
    assert last in Elements(sorted);
    forall i | i in s
      ensures i <= last
    {
      assert i in Elements(sorted);
    }
    MaxIs(last, s);
    forall x
      ensures x in Elements(init) <==> x in s - {last}
    {
      assert x in Elements(sorted) <==> x in init || x == last;
    }
  }

  class ScaleCmd {
    const newDesiredAgentCount: int
    const apiserverGiven: bool
    const persistAPIModel: bool

    constructor (newDesiredAgentCount: int, apiserverGiven: bool, persistAPIModel: bool)
      ensures this.newDesiredAgentCount == newDesiredAgentCount
      ensures this.apiserverGiven == apiserverGiven && this.persistAPIModel == persistAPIModel
    {
      this.newDesiredAgentCount := newDesiredAgentCount;
      this.apiserverGiven := apiserverGiven;
      this.persistAPIModel := persistAPIModel;
    }

    // One pass over the listed VMs.
    method CollectIndexes(list: seq<VM>) returns (ok: bool, indexes: seq<nat>, indexToVM: map<nat, string>)
      requires forall i, j :: 0 <= i < j < |list| ==> list[i] != list[j]
      requires WellNamed(Listed(list))
      ensures ok <==> forall v :: v in list && v.inPool ==> v.index.Some?
      ensures ok ==> multiset(indexes) == multiset(IndexSet(Listed(list)))
      ensures ok ==> forall i :: i in indexes ==> i in indexToVM && VM(indexToVM[i], true, Some(i)) in list
    {
      indexes, indexToVM := [], map[];
      ok := true;
      for n := 0 to |list|
        invariant forall v :: v in list[..n] && v.inPool ==> v.index.Some?
        invariant multiset(indexes) == multiset(IndexSet(Listed(list[..n])))
        invariant forall i :: i in indexes ==> i in indexToVM && VM(indexToVM[i], true, Some(i)) in list
      {
        var vm := list[n];
        NextIndex(list, n);
        if !vm.inPool {
          continue;
        }
        if vm.index == None {
          return false, [], map[];
        }
        indexToVM := indexToVM[vm.index.value := vm.name];
        indexes := indexes + [vm.index.value];
      }
      assert list[..|list|] == list;
    }

    lemma NextIndex(list: seq<VM>, n: nat)
      requires n < |list| && forall i, j :: 0 <= i < j < |list| ==> list[i] != list[j]
      requires WellNamed(Listed(list))
      ensures var before, after := IndexSet(Listed(list[..n])), IndexSet(Listed(list[..n + 1]));
              if list[n].inPool && list[n].index.Some?
              then list[n].index.value !in before && after == before + {list[n].index.value}
              else after == before
    {
      assert list[..n + 1] == list[..n] + [list[n]];
      assert list[n] in (Listed(list));
      forall v | v in list[..n]
        ensures v in (Listed(list)) && v != list[n]
      {
      }
    }

    method SaveAPIModel(group: ResourceGroup) returns (outcome: Outcome)
      modifies group`savedCount, group`failed
      ensures group.failed <==> old(group.failed) || outcome != Done
      ensures outcome != Crashed
      ensures group.savedCount == if outcome == Done then newDesiredAgentCount else old(group.savedCount)
    {
      var ok := group.Call();
      if ok {
        group.savedCount := newDesiredAgentCount;
        return Done;
      }
      return Failed;
    }

    // Up to ten attempts to find VMs of the pool; it gives up at once when there is no VM at
    // all or a name cannot be taken apart.
    method FindIndexes(group: ResourceGroup) returns (ok: bool, indexes: seq<nat>, indexToVM: map<nat, string>)
      requires WellNamed(group.vms) && !group.failed
      modifies group`failed, group`listed
      ensures ok <==> !group.failed && group.vms != {} && forall v :: v in group.vms && v.inPool ==> v.index.Some?
      ensures ok ==> group.listed == old(group.listed) + if IndexSet(group.vms) == {} then 10 else 1
      ensures ok ==> multiset(indexes) == multiset(IndexSet(group.vms))
      ensures ok ==> forall v :: v in group.vms && v.inPool ==> v.index.Some?
      ensures ok ==> forall i :: i in indexes ==> i in indexToVM && VM(indexToVM[i], true, Some(i)) in group.vms
    {
      ok, indexes, indexToVM := true, [], map[];
      for attempt := 0 to 10
        invariant ok && indexes == [] && !group.failed && group.listed == old(group.listed) + attempt
        invariant attempt > 0 ==> group.vms != {} && IndexSet(group.vms) == {}
        invariant attempt > 0 ==> multiset(indexes) == multiset(IndexSet(group.vms))
        invariant attempt > 0 ==> forall v :: v in group.vms && v.inPool ==> v.index.Some?
      {
        var list;
        ok, list := group.ListVirtualMachines();
        assert ok && |list| > 0 ==> list[0] in group.vms;
        if !ok || |list| < 1 {
          return false, [], map[];
        }
        assert Listed(list) == group.vms;
        ok, indexes, indexToVM := CollectIndexes(list);
        if ok {
          NoIndexes(indexes, IndexSet(group.vms));
        }
        if !ok || |indexes| > 0 {
          return;
        }
      }
    }

    // The VMs with the highest indexes, highest first; None when the loop runs below index 0.
    method SelectVMs(indexes: seq<nat>, indexToVM: map<nat, string>) returns (r: Option<seq<string>>)
      requires forall i :: i in indexes ==> i in indexToVM
      requires |indexes| > newDesiredAgentCount
      ensures r == None <==> newDesiredAgentCount < 0
      ensures r.Some? ==> |r.value| == |indexes| - newDesiredAgentCount
      ensures r.Some? ==> forall k :: 0 <= k < |r.value| ==> r.value[k] == indexToVM[indexes[|indexes| - 1 - k]]
    {
      var vmsToDelete := [];
      var i: int := |indexes| - 1;
      while i >= newDesiredAgentCount
        invariant i < |indexes| && i >= -1 && i >= newDesiredAgentCount - 1
        invariant |vmsToDelete| == |indexes| - 1 - i
        invariant forall k :: 0 <= k < |vmsToDelete| ==> vmsToDelete[k] == indexToVM[indexes[|indexes| - 1 - k]]
        decreases i + 1
      {
        if i < 0 {
          return None;
        }
        var name := indexToVM[indexes[i]];
        vmsToDelete := vmsToDelete + [name];
        i := i - 1;
      }
      return Some(vmsToDelete);
    }

    function CountForTemplate(highestUsedIndex: nat, currentNodeCount: nat): int {
      newDesiredAgentCount + if highestUsedIndex != 0 then highestUsedIndex + 1 - currentNodeCount else 0
    }

    // The indexes the pool should have after the run.
    ghost function Target(before: set<VM>): set<nat> {
      if IndexSet(before) == {} || newDesiredAgentCount < 0 then IndexSet(before)
      else Scaled(IndexSet(before), newDesiredAgentCount)
    }

    // A run that may have failed half-way: only drained VMs of the pool are gone, none that
    // should stay; only such VMs are drained; and only VMs that should be there are new.
    ghost predicate Partial(before: set<VM>, after: set<VM>, drained: set<string>) {
      && (forall name :: name in drained ==> Surplus(before, name))
      && (forall v :: v in before && v !in after ==>
            v.inPool && v.index.Some? && v.name in drained && v.index.value !in Target(before))
      && (forall v :: v in after && v !in before ==> v.inPool && v.index.Some? && v.index.value in Target(before))
    }

    // The name of a VM of the pool that should go.
    ghost predicate Surplus(before: set<VM>, name: string) {
      exists v :: v in before && v.name == name && v.inPool && v.index.Some? && v.index.value !in Target(before)
    }

    // The command refuses to run: nothing to scale, or nothing to drain with.
    ghost predicate Refused(before: set<VM>) {
      || before == {}
      || (exists v :: v in before && v.inPool && v.index.None?)
      || (IndexSet(before) == {} && newDesiredAgentCount != 0)
      || (|IndexSet(before)| > newDesiredAgentCount && !apiserverGiven)
    }

    method ScaleDown(group: ResourceGroup, indexes: seq<nat>, indexToVM: map<nat, string>) returns (outcome: Outcome)
      requires !group.failed && group.drained == {}
      requires WellNamed(group.vms) && Ascending(indexes, IndexSet(group.vms))
      requires forall v :: v in group.vms && v.inPool ==> v.index.Some?
      requires forall i :: i in indexes ==> i in indexToVM && VM(indexToVM[i], true, Some(i)) in group.vms
      requires |indexes| > newDesiredAgentCount && indexes != []
      modifies group`vms, group`drained, group`failed
      ensures group.vms <= old(group.vms) && (!apiserverGiven ==> group.vms == old(group.vms) && group.drained == {})
      ensures outcome == if !apiserverGiven || group.failed then Failed else if newDesiredAgentCount < 0 then Crashed else Done
      ensures !apiserverGiven || newDesiredAgentCount < 0 ==> !group.failed
      ensures Partial(old(group.vms), group.vms, group.drained)
      ensures outcome == Done ==> newDesiredAgentCount >= 0 && IndexSet(group.vms) == Target(old(group.vms))
      ensures newDesiredAgentCount < 0 ==> group.vms == old(group.vms) && group.drained == {}
    {
      if !apiserverGiven {
        return Failed;
      }
      var vmsToDelete := SelectVMs(indexes, indexToVM);
      if vmsToDelete == None {
        return Crashed;
      }
      ScaledDown(indexes, IndexSet(group.vms), newDesiredAgentCount);
      SelectedNames(indexes, indexToVM, vmsToDelete.value);
      Selected(old(group.vms), indexes, indexToVM, vmsToDelete.value);
      var ok := group.DrainNodes(vmsToDelete.value);
      if !ok {
        return Failed;
      }
      ok := group.ScaleDownVMs(vmsToDelete.value);
      if !ok {
        return Failed;
      }
      Remaining(old(group.vms), group.vms, indexes, vmsToDelete.value);
      return Done;
    }

    lemma SelectedNames(indexes: seq<nat>, indexToVM: map<nat, string>, names: seq<string>)
      requires forall i :: i in indexes ==> i in indexToVM
      requires 0 <= newDesiredAgentCount <= |indexes| && |names| == |indexes| - newDesiredAgentCount
      requires forall k :: 0 <= k < |names| ==> names[k] == indexToVM[indexes[|indexes| - 1 - k]]
      ensures forall name :: name in names <==>
                exists i :: newDesiredAgentCount <= i < |indexes| && indexToVM[indexes[i]] == name
    {
      forall i | newDesiredAgentCount <= i < |indexes|
        ensures indexToVM[indexes[i]] in names
      {
        assert names[|indexes| - 1 - i] == indexToVM[indexes[i]];
      }
    }

    // The selected names are those of the pool's VMs that should go.
    lemma Selected(vms: set<VM>, indexes: seq<nat>, indexToVM: map<nat, string>, names: seq<string>)
      requires WellNamed(vms) && Ascending(indexes, IndexSet(vms)) && indexes != []
      requires forall i :: i in indexes ==> i in indexToVM && VM(indexToVM[i], true, Some(i)) in vms
      requires 0 <= newDesiredAgentCount < |indexes|
      requires Target(vms) == Elements(indexes[..newDesiredAgentCount])
      requires forall name :: name in names <==>
                 exists i :: newDesiredAgentCount <= i < |indexes| && indexToVM[indexes[i]] == name
      ensures forall v :: v in vms && v.name in names ==> v.inPool && v.index.Some? && v.index.value !in Target(vms)
      ensures forall v :: v in vms && v.inPool && v.index.Some? && v.name !in names ==> v.index.value in Target(vms)
      ensures forall name :: name in names ==> Surplus(vms, name)
    {
      forall name | name in names
        ensures Surplus(vms, name)
      {
        var i :| newDesiredAgentCount <= i < |indexes| && indexToVM[indexes[i]] == name;
        assert VM(name, true, Some(indexes[i])) in vms && indexes[i] !in Elements(indexes[..newDesiredAgentCount]);
      }
      forall v | v in vms && v.name in names
        ensures v.inPool && v.index.Some? && v.index.value !in Target(vms)
      {
        var i :| newDesiredAgentCount <= i < |indexes| && indexToVM[indexes[i]] == v.name;
        assert v == VM(indexToVM[indexes[i]], true, Some(indexes[i]));
      }
      forall v | v in vms && v.inPool && v.index.Some? && v.name !in names
        ensures v.index.value in Target(vms)
      {
        assert v.index.value in Elements(indexes);
        var i :| 0 <= i < |indexes| && indexes[i] == v.index.value;
        assert v == VM(indexToVM[indexes[i]], true, Some(indexes[i]));
        if i < newDesiredAgentCount {
          assert indexes[..newDesiredAgentCount][i] == v.index.value;
        }
      }
    }

    lemma Remaining(before: set<VM>, after: set<VM>, indexes: seq<nat>, names: seq<string>)
      requires Ascending(indexes, IndexSet(before)) && after <= before
      requires Target(before) <= IndexSet(before)
      requires forall v :: v in before && v !in after ==> v.name in names
      requires forall v :: v in after ==> v.name !in names
      requires forall v :: v in before && v.name in names ==> v.inPool && v.index.Some? && v.index.value !in Target(before)
      requires forall v :: v in before && v.inPool && v.index.Some? && v.name !in names ==> v.index.value in Target(before)
      ensures IndexSet(after) == Target(before)
    {
      forall i | i in Target(before)
        ensures i in IndexSet(after)
      {
        var v :| v in before && v.inPool && v.index == Some(i);
      }
    }

    // Run for a pool in an availability set.
    method Run(group: ResourceGroup) returns (outcome: Outcome)
      requires WellNamed(group.vms)
      modifies group
      ensures WellNamed(group.vms) && Partial(old(group.vms), group.vms, group.drained)
      ensures outcome == if Refused(old(group.vms)) || group.failed then Failed else if newDesiredAgentCount < 0 then Crashed else Done
      ensures outcome == Done ==> IndexSet(group.vms) == Target(old(group.vms)) && |IndexSet(group.vms)| == newDesiredAgentCount
      ensures Refused(old(group.vms)) || newDesiredAgentCount < 0 || |IndexSet(old(group.vms))| == newDesiredAgentCount
              ==> group.vms == old(group.vms) && group.drained == {}
      ensures group.savedCount == if outcome == Done && persistAPIModel && |IndexSet(old(group.vms))| != newDesiredAgentCount
                                  then newDesiredAgentCount else old(group.savedCount)
    {
      hide Partial, WellNamed, Ascending, Sorted, Target, Surplus;
      ghost var before := group.vms;
      group.drained, group.failed, group.listed := {}, false, 0;
      NothingDone(before, group.drained);
      var ok, found, indexToVM := FindIndexes(group);
      if !ok {
        return Failed;
      }
      var indexes := SortInts(found);
      SortedSet(indexes, IndexSet(before));
      var currentNodeCount := |indexes|;
      ListsAll(indexes, IndexSet(before));
      if currentNodeCount == newDesiredAgentCount {
        AlreadyScaled(before);
        return Done;
      }
      if currentNodeCount == 0 {
        return Failed;
      }
      SubsetNamed(before);
      SameElements(found, indexes);
      var highestUsedIndex := indexes[currentNodeCount - 1];
      if currentNodeCount > newDesiredAgentCount {
        outcome := ScaleDown(group, indexes, indexToVM);
        if outcome != Done {
          return;
        }
        TargetSize(before);
        if persistAPIModel {
          outcome := SaveAPIModel(group);
          return;
        }
      }
      outcome := Deploy(group, before, indexes, highestUsedIndex, currentNodeCount);
    }

    // The template deployment: it creates the missing VMs after scaling up, and has nothing to
    // create after scaling down.
    method Deploy(group: ResourceGroup, ghost before: set<VM>, ghost indexes: seq<nat>, highestUsedIndex: nat, currentNodeCount: nat)
      returns (outcome: Outcome)
      requires WellNamed(group.vms) && Partial(before, group.vms, group.drained) && group.vms <= before
      requires Ascending(indexes, IndexSet(before)) && indexes != [] && newDesiredAgentCount >= 0
      requires currentNodeCount == |indexes| != newDesiredAgentCount && highestUsedIndex == indexes[|indexes| - 1]
      requires currentNodeCount < newDesiredAgentCount ==> group.vms == before
      requires currentNodeCount > newDesiredAgentCount ==> IndexSet(group.vms) == Target(before)
      requires !group.failed
      modifies group`vms, group`savedCount, group`failed
      ensures WellNamed(group.vms) && Partial(before, group.vms, group.drained)
      ensures outcome == if group.failed then Failed else Done
      ensures outcome == Done ==> IndexSet(group.vms) == Target(before) && |IndexSet(group.vms)| == newDesiredAgentCount
      ensures group.savedCount == if outcome == Done && persistAPIModel then newDesiredAgentCount else old(group.savedCount)
    {
      hide Partial, WellNamed, Ascending, Target;
      var generated := group.Call();
      if !generated {
        return Failed;
      }
      ListsAll(indexes, IndexSet(before));
      TargetSize(before);
      var ok := DeployCount(group, before, indexes, highestUsedIndex, currentNodeCount);
      if !ok {
        return Failed;
      }
      if persistAPIModel {
        outcome := SaveAPIModel(group);
        return;
      }
      return Done;
    }

    method DeployCount(group: ResourceGroup, ghost before: set<VM>, ghost indexes: seq<nat>, highestUsedIndex: nat, currentNodeCount: nat)
      returns (ok: bool)
      requires WellNamed(group.vms) && Partial(before, group.vms, group.drained) && group.vms <= before
      requires Ascending(indexes, IndexSet(before)) && indexes != [] && newDesiredAgentCount >= 0
      requires currentNodeCount == |indexes| != newDesiredAgentCount && highestUsedIndex == indexes[|indexes| - 1]
      requires currentNodeCount < newDesiredAgentCount ==> group.vms == before
      requires currentNodeCount > newDesiredAgentCount ==> IndexSet(group.vms) == Target(before)
      modifies group`vms, group`failed
      ensures group.failed <==> old(group.failed) || !ok
      ensures WellNamed(group.vms) && Partial(before, group.vms, group.drained)
      ensures ok ==> IndexSet(group.vms) == Target(before)
    {
      hide Partial, WellNamed, Ascending;
      var countForTemplate := CountForTemplate(highestUsedIndex, currentNodeCount);
      ListsAll(indexes, IndexSet(before));
      InitAscending(indexes, IndexSet(before));
      CountIsTop(indexes, IndexSet(before));
      FewerIndexes(group.vms, before);
      ghost var kept := group.vms;
      ok := group.DeployTemplate(highestUsedIndex + 1, countForTemplate);
      if currentNodeCount < newDesiredAgentCount {
        UpBy(IndexSet(before), newDesiredAgentCount);
        DeployedAbove(before, group.vms, highestUsedIndex + 1, newDesiredAgentCount - currentNodeCount, ok);
        PartialUp(before, group.vms, group.drained);
      } else {
        assert group.vms == kept;
      }
    }

    lemma NothingDone(vms: set<VM>, drained: set<string>)
      requires drained == {}
      ensures Partial(vms, vms, drained)
    {
    }

    lemma TargetSize(before: set<VM>)
      requires IndexSet(before) != {} && newDesiredAgentCount >= 0
      ensures |Target(before)| == newDesiredAgentCount
    {
      ScaledSize(IndexSet(before), newDesiredAgentCount);
    }

    lemma SubsetNamed(vms: set<VM>)
      requires WellNamed(vms)
      ensures forall fewer: set<VM> :: fewer <= vms ==> WellNamed(fewer)
    {
    }

    lemma FewerIndexes(kept: set<VM>, before: set<VM>)
      requires kept <= before
      ensures IndexSet(kept) <= IndexSet(before)
    {
    }

    lemma PartialUp(before: set<VM>, after: set<VM>, drained: set<string>)
      requires before <= after && Partial(before, before, drained)
      requires forall v :: v in after && v !in before ==> v.inPool && v.index.Some? && v.index.value in Target(before)
      ensures Partial(before, after, drained)
    {
    }

    lemma AlreadyScaled(before: set<VM>)
      requires |IndexSet(before)| == newDesiredAgentCount
      ensures Target(before) == IndexSet(before)
    {
      if IndexSet(before) != {} {
        UpByNone(IndexSet(before));
      }
    }

    // The special case for a highest index of 0 makes no difference: the pool then has one VM.
    lemma CountIsTop(indexes: seq<nat>, s: set<nat>)
      requires Ascending(indexes, s) && indexes != []
      ensures var highest := indexes[|indexes| - 1];
              CountForTemplate(highest, |indexes|) == highest + 1 + newDesiredAgentCount - |indexes|
    {
      if |indexes| > 1 {
        assert indexes[0] < indexes[|indexes| - 1];
      }
    }

    lemma DeployedAbove(before: set<VM>, after: set<VM>, from: nat, count: nat, ok: bool)
      requires before <= after
      requires forall v :: v in after && v !in before ==> v.inPool && v.index.Some? && from <= v.index.value < from + count
      requires ok ==> forall i: nat :: from <= i < from + count ==> i in IndexSet(after)
      ensures forall v :: v in after && v !in before ==> v.index.value in Range(from, count)
      ensures ok ==> IndexSet(after) == IndexSet(before) + Range(from, count)
    {
      forall i | i in IndexSet(after)
        ensures i in IndexSet(before) + Range(from, count)
      {
        var v :| v in after && v.inPool && v.index == Some(i);
      }
      forall i | i in IndexSet(before)
        ensures i in IndexSet(after)
      {
        var v :| v in before && v.inPool && v.index == Some(i);
      }
    }

    lemma NoIndexes(indexes: seq<nat>, s: set<nat>)
      requires multiset(indexes) == multiset(s)
      ensures indexes == [] <==> s == {}
    {
      if indexes != [] {
        assert indexes[0] in multiset(indexes);
      }
      if s != {} {
        var i :| i in s;
        assert i in multiset(s);
      }
    }

    lemma SameElements(a: seq<nat>, b: seq<nat>)
      requires multiset(a) == multiset(b)
      ensures forall i :: i in a <==> i in b
    {
      forall i
        ensures i in a <==> i in b
      {
        assert i in a <==> i in multiset(a);
        assert i in b <==> i in multiset(b);
      }
    }
  }

  // A pool of one VM and a desired count of -1: the selection loop runs below index 0.
  method NegativeCountCrashes() returns (r: Option<seq<string>>)
    ensures r == None
  {
    var cmd := new ScaleCmd(-1, true, true);
    r := cmd.SelectVMs([0], map[0 := "k8s-agentpool1-1-0"]);
  }
}
