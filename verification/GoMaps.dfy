// Go's map[string]string is a reference: two variables may hold the same map.  StringMap is
// such a heap object.  Its methods are the loops over maps that the defaulting code writes
// again and again; each `range` loop picks its keys in an arbitrary order, and each contract
// says that the order makes no difference.
module GoMaps {

  type Entries = map<string, string>

  function ToSet(keys: seq<string>): (s: set<string>) {
    set key | key in keys
  }

  lemma ToSetEmpty(keys: seq<string>)
    ensures ToSet(keys) == {} <==> keys == []
  {
    if keys != [] {
      assert keys[0] in ToSet(keys);
    }
  }

  lemma ToSetCons(key: string, keys: seq<string>)
    ensures ToSet([key] + keys) == {key} + ToSet(keys)
  {
  }

  lemma ToSetConcat(xs: seq<string>, ys: seq<string>)
    ensures ToSet(xs + ys) == ToSet(xs) + ToSet(ys)
  {
  }

  // m[key] in Go: the zero value when the key is absent.
  function Get(m: Entries, key: string): string {
    if key in m then m[key] else ""
  }

  lemma UnionAssociates(a: Entries, b: Entries, c: Entries)
    ensures (a + b) + c == a + (b + c)
  {
  }

  lemma SubtractUnion(a: Entries, b: Entries, keys: set<string>)
    ensures (a + b) - keys == (a - keys) + (b - keys)
  {
  }

  lemma SubtractTwice(a: Entries, first: set<string>, second: set<string>)
    ensures (a - first) - second == a - (first + second)
  {
  }

  class StringMap {
    var entries: Entries

    constructor (entries: Entries)
      ensures this.entries == entries
    {
      this.entries := entries;
    }

    // for key, val := range defaults { if _, ok := m[key]; !ok { m[key] = val } }
    method FillMissing(defaults: Entries)
      modifies this
      ensures entries == defaults + old(entries)
    {
      var todo := defaults.Keys;
      while todo != {}
        invariant todo <= defaults.Keys
        invariant entries == (map key | key in defaults.Keys - todo :: defaults[key]) + old(entries)
        decreases |todo|
      {
        var key :| key in todo;
        todo := todo - {key};
        if key !in entries {
          entries := entries[key := defaults[key]];
        }
      }
    }

    // for key, val := range forced { m[key] = val }
    method Overwrite(forced: Entries)
      modifies this
      ensures entries == old(entries) + forced
    {
      var todo := forced.Keys;
      while todo != {}
        invariant todo <= forced.Keys
        invariant entries == old(entries) + (map key | key in forced.Keys - todo :: forced[key])
        decreases |todo|
      {
        var key :| key in todo;
        todo := todo - {key};
        entries := entries[key := forced[key]];
      }
    }

    // for _, key := range keys { delete(m, key) }
    method DeleteAll(keys: seq<string>)
      modifies this
      ensures entries == old(entries) - ToSet(keys)
    {
      for i := 0 to |keys|
        invariant entries == old(entries) - ToSet(keys[..i])
      {
        assert keys[..i + 1] == keys[..i] + [keys[i]];
        entries := entries - {keys[i]};
      }
      assert keys[..|keys|] == keys;
    }

    // m[key] = val
    method Set(key: string, val: string)
      modifies this
      ensures entries == old(entries)[key := val]
    {
      entries := entries[key := val];
    }
  }
}
