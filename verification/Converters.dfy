// pkg/api/convertertoapi.go and pkg/api/converterfromapi.go: copying lists of addons and
// components between the versioned and the unversioned model.  The loops are the same in both
// directions and for both kinds of entry.
module Converters {

  import opened GoMaps
  import opened Reconcile
  import opened Addons

  method CopyConfig(from: StringMap?) returns (config: StringMap)
    ensures fresh(config) && config.entries == Conf(from)
  {
    config := new StringMap(map[]);
    if from != null {
      config.Overwrite(from.entries);
    }
  }

  method CopyContainers(from: ContainerArray?) returns (containers: ContainerArray?)
    ensures Items(containers) == Items(from)
    ensures containers == null || fresh(containers)
  {
    containers := null;
    for j := 0 to |Items(from)|
      invariant Items(containers) == Items(from)[..j]
      invariant containers == null || fresh(containers)
    {
      containers := new ContainerArray(Items(containers) + [Items(from)[j]]);
    }
  }

  method Convert(es: seq<Entry>, ghost vs: seq<Addon>) returns (r: seq<Entry>)
    requires Holds(es, vs)
    ensures Holds(r, vs) && Holds(es, vs) && AllApart(r)
    ensures forall i :: 0 <= i < |r| ==> r[i].config != null
    ensures forall o :: o in Refs(r) ==> o == null || fresh(o)
  {
    r := [];
    for i := 0 to |es|
      invariant |r| == i && AllApart(r) && Holds(es, vs) && Holds(r, vs[..i])
      invariant forall j :: 0 <= j < i ==>
                  r[j].config != null && fresh(r[j].config) && (r[j].containers != null ==> fresh(r[j].containers))
    {
      assert es[i].Value() == vs[i];
      var e := ConvertOne(es[i]);
      assert vs[..i + 1] == vs[..i] + [vs[i]];
      r := r + [e];
    }
    assert vs[..|vs|] == vs;
  }

  method ConvertOne(e: Entry) returns (r: Entry)
    ensures r.Value() == e.Value() == old(e.Value())
    ensures r.config != null && fresh(r.config) && (r.containers != null ==> fresh(r.containers))
  {
    var containers := CopyContainers(e.containers);
    var config := CopyConfig(e.config);
    r := Entry(e.name, e.enabled, e.mode, containers, config, e.pools, e.data);
  }

  // To the other model and back: the values are the same, and no array or map is shared.
  method RoundTrip(es: seq<Entry>, ghost vs: seq<Addon>) returns (there: seq<Entry>, back: seq<Entry>)
    requires Holds(es, vs)
    ensures Holds(there, vs) && Holds(back, vs) && Holds(es, vs)
    ensures AllApart(back) && forall i, k :: 0 <= i < |back| && 0 <= k < |there + es| ==> Apart(back[i], (there + es)[k])
  {
    there := Convert(es, vs);
    ghost var others := there + es;
    back := Convert(there, vs);
    forall i, k | 0 <= i < |back| && 0 <= k < |others|
      ensures Apart(back[i], others[k])
    {
      RefsOfEntry(back, i);
    }
  }
}
