// The --feature-gates string language of pkg/api/defaults.go: "k1=v1,k2=v2,..." is parsed
// into a map where the first binding of a key wins, and printed back with its keys sorted.
module Gates {
  import opened GoMaps
  import opened Options
  import opened Strings

  // ---- The meaning of a gate string ----

  function PairOf(item: string): Option<(string, string)> {
    var parts := Split(Trim(item), '=');
    if |parts| == 2 then Some((parts[0], parts[1])) else None
  }

  function ApplyItem(m: Entries, item: string): Entries {
    match PairOf(item)
    case None => m
    case Some((key, val)) => if key in m then m else m[key := val]
  }

  function ApplyItems(m: Entries, items: seq<string>): Entries
    decreases items
  {
    if items == [] then m else ApplyItems(ApplyItem(m, items[0]), items[1..])
  }

  function Parse(s: string): Entries {
    ApplyItems(map[], Split(s, ','))
  }

  // Applying a string to a map only adds bindings for keys the map does not have.
  lemma {:induction false} ApplyItemsIsUnion(m: Entries, items: seq<string>)
    ensures ApplyItems(m, items) == ApplyItems(map[], items) + m
    decreases items
  {
    if items != [] {
      var rest := ApplyItems(map[], items[1..]);
      ApplyItemsIsUnion(ApplyItem(m, items[0]), items[1..]);
      ApplyItemsIsUnion(ApplyItem(map[], items[0]), items[1..]);
      UnionAssociates(rest, ApplyItem(map[], items[0]), m);
      assert ApplyItem(map[], items[0]) + m == ApplyItem(m, items[0]);
    }
  }

  // ---- Sorting keys ----

  ghost predicate StrictlySorted(keys: seq<string>) {
    forall i, j :: 0 <= i < j < |keys| ==> Lt(keys[i], keys[j])
  }

  ghost predicate IsLeast(key: string, keys: set<string>) {
    key in keys && forall other :: other in keys ==> Le(key, other)
  }

  lemma {:induction false} LeastExists(keys: set<string>)
    requires keys != {}
    ensures exists key :: IsLeast(key, keys)
  {
    var one :| one in keys;
    LeTotal(one, one);
    if keys == {one} {
      assert IsLeast(one, keys);
    } else {
      var rest := keys - {one};
      LeastExists(rest);
      var low :| IsLeast(low, rest);
      LeTotal(one, low);
      LeastExtends(one, low, keys);
    }
  }

  lemma LeastExtends(one: string, low: string, keys: set<string>)
    requires one in keys && Le(one, one) && IsLeast(low, keys - {one})
    ensures Le(one, low) ==> IsLeast(one, keys)
    ensures Le(low, one) ==> IsLeast(low, keys)
  {
    if Le(one, low) {
      forall other | other in keys
        ensures Le(one, other)
      {
        if other != one {
          LeTransitive(one, low, other);
        }
      }
    }
  }

  ghost function Least(keys: set<string>): (key: string)
    requires keys != {}
    ensures IsLeast(key, keys) && key in keys
  {
    LeastExists(keys);
    var key :| IsLeast(key, keys);
    key
  }

  ghost function SortedKeys(keys: set<string>): seq<string> {
    if keys == {} then [] else [Least(keys)] + SortedKeys(keys - {Least(keys)})
  }

  lemma {:induction false} SortedKeysListAll(keys: set<string>)
    ensures StrictlySorted(SortedKeys(keys))
    ensures ToSet(SortedKeys(keys)) == keys
    ensures |SortedKeys(keys)| == |keys|
    ensures forall i :: 0 <= i < |SortedKeys(keys)| ==> SortedKeys(keys)[i] in keys
  {
    hide IsLeast, StrictlySorted;
    if keys == {} {
      NothingSorted();
    } else {
      var key, rest := Least(keys), SortedKeys(keys - {Least(keys)});
      SortedKeysListAll(keys - {key});
      ToSetCons(key, rest);
      LeastFirst(key, rest, keys);
    }
  }

  lemma NothingSorted()
    ensures StrictlySorted([])
  {
  }

  lemma LeastFirst(key: string, rest: seq<string>, keys: set<string>)
    requires IsLeast(key, keys) && StrictlySorted(rest)
    requires forall i :: 0 <= i < |rest| ==> rest[i] in keys - {key}
    ensures StrictlySorted([key] + rest)
  {
    forall i, j | 0 <= i < j < |[key] + rest|
      ensures Lt(([key] + rest)[i], ([key] + rest)[j])
    {
      assert i > 0 ==> Lt(rest[i - 1], rest[j - 1]);
    }
  }

  // There is only one way to list a set of strings in strictly ascending order.
  lemma {:induction false} SortedUnique(a: seq<string>, b: seq<string>)
    requires StrictlySorted(a) && StrictlySorted(b)
    requires ToSet(a) == ToSet(b)
    ensures a == b
  {
    ToSetEmpty(a);
    ToSetEmpty(b);
    if a != [] {
      assert a[0] in ToSet(b) && b[0] in ToSet(a);
      if a[0] != b[0] {
        LeAntisymmetric(a[0], b[0]);
      }
      forall key
        ensures key in ToSet(a[1..]) <==> key in ToSet(b[1..])
      {
        if key in ToSet(a[1..]) {
          assert key in ToSet(b);
        }
        if key in ToSet(b[1..]) {
          assert key in ToSet(a);
        }
      }
      SortedUnique(a[1..], b[1..]);
      assert a == [a[0]] + a[1..] && b == [b[0]] + b[1..];
    }
  }

  // ---- Printing ----

  function Items(m: Entries, keys: seq<string>): (items: seq<string>)
    requires forall i :: 0 <= i < |keys| ==> keys[i] in m
    ensures |items| == |keys|
    ensures forall i :: 0 <= i < |keys| ==> items[i] == keys[i] + "=" + m[keys[i]]
  {
    if keys == [] then [] else [keys[0] + "=" + m[keys[0]]] + Items(m, keys[1..])
  }

  ghost function PrintedItems(m: Entries): (items: seq<string>) {
    SortedKeysListAll(m.Keys);
    Items(m, SortedKeys(m.Keys))
  }

  ghost function Print(m: Entries): string {
    Join(PrintedItems(m), ',')
  }

  // ---- Round trip ----

  // A binding that survives printing: no separators, and no space where Trim would cut.
  predicate CleanPair(key: string, val: string) {
    && ',' !in key && '=' !in key && (key == "" || key[0] != ' ')
    && ',' !in val && '=' !in val && (val == "" || val[|val| - 1] != ' ')
  }

  ghost predicate Clean(m: Entries) {
    forall key :: key in m ==> CleanPair(key, m[key])
  }

  lemma PairOfPrinted(key: string, val: string)
    requires CleanPair(key, val)
    ensures PairOf(key + "=" + val) == Some((key, val))
  {
    var s := key + "=" + val;
    assert s[0] != ' ' && s[|s| - 1] != ' ';
    assert s[..|s|] == s;
    assert s == key + ['='] + val;
    SplitHead(key, val, '=');
  }

  lemma {:induction false} TrimKeeps(s: string)
    ensures forall c :: c in Trim(s) ==> c in s
  {
    TrimLeftKeeps(s);
  }

  lemma TrimLeftKeeps(s: string)
    ensures forall c :: c in TrimLeft(s) ==> c in s
  {
  }

  lemma PairOfClean(item: string)
    requires ',' !in item
    ensures PairOf(item).Some? ==> CleanPair(PairOf(item).value.0, PairOf(item).value.1)
  {
    var s := Trim(item);
    TrimKeeps(item);
    var parts := Split(s, '=');
    if |parts| == 2 {
      JoinSplit(s, '=');
      assert parts[1..] == [parts[1]];
      assert s == parts[0] + ['='] + parts[1];
      assert forall c :: c in parts[0] ==> c in s;
      assert forall c :: c in parts[1] ==> c in s;
    }
  }

  lemma {:induction false} ApplyItemsClean(m: Entries, items: seq<string>)
    requires Clean(m)
    requires forall i :: 0 <= i < |items| ==> ',' !in items[i]
    ensures Clean(ApplyItems(m, items))
    decreases items
  {
    if items != [] {
      PairOfClean(items[0]);
      ApplyItemsClean(ApplyItem(m, items[0]), items[1..]);
    }
  }

  ghost function Select(m: Entries, keys: seq<string>): Entries
    requires forall i :: 0 <= i < |keys| ==> keys[i] in m
  {
    map key | key in m && key in keys :: m[key]
  }

  lemma SelectStep(m: Entries, keys: seq<string>, acc: Entries)
    requires keys != [] && forall i :: 0 <= i < |keys| ==> keys[i] in m
    ensures Select(m, keys[1..]) + (if keys[0] in acc then acc else acc[keys[0] := m[keys[0]]])
         == Select(m, keys) + acc
  {
    assert keys == [keys[0]] + keys[1..];
  }

  lemma {:induction false} ParsePrintedItems(m: Entries, keys: seq<string>, acc: Entries)
    requires Clean(m)
    requires forall i :: 0 <= i < |keys| ==> keys[i] in m
    ensures ApplyItems(acc, Items(m, keys)) == Select(m, keys) + acc
  {
    if keys != [] {
      var item := keys[0] + "=" + m[keys[0]];
      PairOfPrinted(keys[0], m[keys[0]]);
      ParsePrintedItems(m, keys[1..], ApplyItem(acc, item));
      SelectStep(m, keys, acc);
    }
  }

  lemma SelectAll(m: Entries, keys: seq<string>)
    requires forall i :: 0 <= i < |keys| ==> keys[i] in m
    requires ToSet(keys) == m.Keys
    ensures Select(m, keys) + map[] == m
  {
    assert forall key :: key in m ==> key in ToSet(keys);
  }

  lemma ParseJoin(items: seq<string>)
    requires items != [] && forall i :: 0 <= i < |items| ==> ',' !in items[i]
    ensures Parse(Join(items, ',')) == ApplyItems(map[], items)
  {
    SplitJoin(items, ',');
  }

  // The parser recovers every clean map from its printed form.
  lemma ParsePrint(m: Entries)
    requires Clean(m)
    ensures Parse(Print(m)) == m
  {
    var keys := SortedKeys(m.Keys);
    var items := PrintedItems(m);
    SortedKeysListAll(m.Keys);
    if m.Keys == {} {
      assert PairOf("") == None;
    } else {
      forall i | 0 <= i < |items|
        ensures ',' !in items[i]
      {
        assert CleanPair(keys[i], m[keys[i]]);
      }
      ParseJoin(items);
      ParsePrintedItems(m, keys, map[]);
      SelectAll(m, keys);
    }
  }

  // Everything the parser produces is clean, whatever the input.
  lemma ParseClean(s: string)
    ensures Clean(Parse(s))
  {
    ApplyItemsClean(map[], Split(s, ','));
  }

  // ---- combineValues and removeKeys as functions ----

  ghost function Meaning(inputs: seq<string>): Entries {
    if inputs == [] then map[] else Meaning(inputs[1..]) + Parse(inputs[0])
  }

  ghost function Combine(inputs: seq<string>): string {
    Print(Meaning(inputs))
  }

  ghost function Remove(input: string, keys: seq<string>): string {
    Print(Parse(input) - ToSet(keys))
  }

  lemma {:induction false} MeaningClean(inputs: seq<string>)
    ensures Clean(Meaning(inputs))
  {
    if inputs != [] {
      MeaningClean(inputs[1..]);
      ParseClean(inputs[0]);
    }
  }

  lemma CombineRoundTrip(inputs: seq<string>)
    ensures Parse(Combine(inputs)) == Meaning(inputs)
  {
    MeaningClean(inputs);
    ParsePrint(Meaning(inputs));
  }

  lemma RemoveRoundTrip(input: string, keys: seq<string>)
    ensures Parse(Remove(input, keys)) == Parse(input) - ToSet(keys)
  {
    ParseClean(input);
    ParsePrint(Parse(input) - ToSet(keys));
  }

  lemma MeaningOne(input: string)
    ensures Meaning([input]) == Parse(input)
  {
    assert [input][1..] == [];
    assert map[] + Parse(input) == Parse(input);
  }

  lemma {:induction false} MeaningConcat(xs: seq<string>, ys: seq<string>)
    ensures Meaning(xs + ys) == Meaning(ys) + Meaning(xs)
  {
    hide Parse;
    if xs == [] {
      assert xs + ys == ys;
    } else {
      MeaningConcat(xs[1..], ys);
      assert (xs + ys)[1..] == xs[1..] + ys;
      UnionAssociates(Meaning(ys), Meaning(xs[1..]), Parse(xs[0]));
    }
  }

  lemma {:induction false} MeaningFirst(inputs: seq<string>, key: string, i: nat)
    requires i < |inputs| && key in Parse(inputs[i])
    requires forall j :: 0 <= j < i ==> key !in Parse(inputs[j])
    ensures key in Meaning(inputs) && Meaning(inputs)[key] == Parse(inputs[i])[key]
  {
    if i > 0 {
      assert key !in Parse(inputs[0]);
      assert forall j :: 0 <= j < i - 1 ==> inputs[1..][j] == inputs[j + 1];
      MeaningFirst(inputs[1..], key, i - 1);
    }
  }

  lemma {:induction false} MeaningKeys(inputs: seq<string>, key: string)
    requires key in Meaning(inputs)
    ensures exists i :: 0 <= i < |inputs| && key in Parse(inputs[i])
  {
    if key !in Parse(inputs[0]) {
      MeaningKeys(inputs[1..], key);
      var i :| 0 <= i < |inputs[1..]| && key in Parse(inputs[1..][i]);
      assert inputs[1..][i] == inputs[i + 1];
    }
  }

  // The first input that binds a key decides its value, and nothing else gets in.
  lemma CombineFirstWins(inputs: seq<string>, key: string, i: nat)
    ensures key in Parse(Combine(inputs)) ==> exists j :: 0 <= j < |inputs| && key in Parse(inputs[j])
    ensures i < |inputs| && key in Parse(inputs[i]) && (forall j :: 0 <= j < i ==> key !in Parse(inputs[j]))
            ==> key in Parse(Combine(inputs)) && Parse(Combine(inputs))[key] == Parse(inputs[i])[key]
  {
    CombineRoundTrip(inputs);
    if key in Meaning(inputs) {
      MeaningKeys(inputs, key);
    }
    if i < |inputs| && key in Parse(inputs[i]) && (forall j :: 0 <= j < i ==> key !in Parse(inputs[j])) {
      MeaningFirst(inputs, key, i);
    }
  }

  // Already combined inputs may be grouped in any way: associativity and idempotence in one.
  lemma CombineFlatten(xs: seq<string>, ys: seq<string>, zs: seq<string>)
    ensures Combine(xs + [Combine(ys)] + zs) == Combine(xs + ys + zs)
  {
    CombineRoundTrip(ys);
    MeaningConcat(xs + [Combine(ys)], zs);
    MeaningConcat(xs, [Combine(ys)]);
    MeaningConcat(xs + ys, zs);
    MeaningConcat(xs, ys);
    MeaningOne(Combine(ys));
  }

  // Each further merge extends the list of merged strings.
  lemma CombineAppend(xs: seq<string>, y: string)
    ensures Combine([Combine(xs), y]) == Combine(xs + [y])
  {
    CombineFlatten([], xs, [y]);
    assert [] + [Combine(xs)] + [y] == [Combine(xs), y];
    assert [] + xs + [y] == xs + [y];
  }

  // An input that already occurred adds nothing.
  lemma CombineAbsorbs(xs: seq<string>, y: string, zs: seq<string>)
    requires y in xs
    ensures Combine(xs + [y] + zs) == Combine(xs + zs)
  {
    MeaningConcat(xs + [y], zs);
    MeaningConcat(xs, [y]);
    MeaningConcat(xs, zs);
    MeaningCovers(xs, y);
    MeaningOne(y);
    CoveredUnion(Parse(y), Meaning(xs));
  }

  lemma CoveredUnion(a: Entries, b: Entries)
    requires a.Keys <= b.Keys
    ensures a + b == b
  {
  }

  lemma {:induction false} MeaningCovers(xs: seq<string>, y: string)
    requires y in xs
    ensures Parse(y).Keys <= Meaning(xs).Keys
  {
    if y != xs[0] {
      MeaningCovers(xs[1..], y);
    }
  }

  // Two strings print alike exactly when they mean the same map.
  lemma CanonicalForm(a: string, b: string)
    ensures Combine([a]) == Combine([b]) <==> Parse(a) == Parse(b)
    ensures Parse(Combine([a])) == Parse(a)
    ensures Combine([a]) == Remove(a, [])
  {
    CombineRoundTrip([a]);
    CombineRoundTrip([b]);
    MeaningOne(a);
    MeaningOne(b);
    NothingRemoved(Parse(a));
  }

  lemma NothingRemoved(m: Entries)
    ensures m - ToSet([]) == m
  {
  }

  // Only the union of the removed keys matters, not how often, in what order or in how
  // many steps they are removed.
  lemma RemoveUnion(input: string, first: seq<string>, second: seq<string>, all: seq<string>)
    requires ToSet(all) == ToSet(first) + ToSet(second)
    ensures Remove(Remove(input, first), second) == Remove(input, all)
  {
    hide Parse, Print;
    RemoveRoundTrip(input, first);
    SubtractTwice(Parse(input), ToSet(first), ToSet(second));
  }

  ghost function RemoveEach(inputs: seq<string>, keys: seq<string>): seq<string> {
    if inputs == [] then [] else [Remove(inputs[0], keys)] + RemoveEach(inputs[1..], keys)
  }

  lemma {:induction false} MeaningRemoveEach(inputs: seq<string>, keys: seq<string>)
    ensures Meaning(RemoveEach(inputs, keys)) == Meaning(inputs) - ToSet(keys)
  {
    if inputs != [] {
      MeaningRemoveEach(inputs[1..], keys);
      RemoveRoundTrip(inputs[0], keys);
      assert RemoveEach(inputs, keys)[1..] == RemoveEach(inputs[1..], keys);
      SubtractUnion(Meaning(inputs[1..]), Parse(inputs[0]), ToSet(keys));
    }
  }

  // Removing after combining is combining after removing.
  lemma RemoveDistributes(inputs: seq<string>, keys: seq<string>)
    ensures Remove(Combine(inputs), keys) == Combine(RemoveEach(inputs, keys))
  {
    CombineRoundTrip(inputs);
    MeaningRemoveEach(inputs, keys);
  }

  // ---- The code ----

  method ApplyValueStringToMap(valueMap: StringMap, input: string)
    modifies valueMap
    ensures valueMap.entries == Parse(input) + old(valueMap.entries)
  {
    var values := Split(input, ',');
    ghost var before := valueMap.entries;
    for index := 0 to |values|
      invariant ApplyItems(before, values) == ApplyItems(valueMap.entries, values[index..])
    {
      var value := Trim(values[index]);
      var valueParts := Split(value, '=');
      assert values[index..][1..] == values[index + 1..];
      if |valueParts| != 2 {
        continue;
      }
      if valueParts[0] !in valueMap.entries {
        valueMap.Set(valueParts[0], valueParts[1]);
      }
    }
    ApplyItemsIsUnion(before, values);
  }

  ghost predicate Sorted(keys: seq<string>) {
    forall i, j :: 0 <= i < j < |keys| ==> Le(keys[i], keys[j])
  }

  // sort.Strings
  method SortStrings(keys: seq<string>) returns (sorted: seq<string>)
    ensures Sorted(sorted)
    ensures multiset(sorted) == multiset(keys)
  {
    sorted := [];
    for n := 0 to |keys|
      invariant Sorted(sorted)
      invariant multiset(sorted) == multiset(keys[..n])
    {
      sorted := Insert(sorted, keys[n]);
      assert keys[..n + 1] == keys[..n] + [keys[n]];
    }
    assert keys[..|keys|] == keys;
  }

  method Insert(sorted: seq<string>, key: string) returns (r: seq<string>)
    requires Sorted(sorted)
    ensures Sorted(r)
    ensures multiset(r) == multiset(sorted) + multiset{key}
  {
    var at := |sorted|;
    while at > 0 && !Le(sorted[at - 1], key)
      invariant 0 <= at <= |sorted|
      invariant forall j :: at <= j < |sorted| ==> Le(key, sorted[j])
    {
      LeTotal(sorted[at - 1], key);
      at := at - 1;
    }
    forall i | 0 <= i < at
      ensures Le(sorted[i], key)
    {
      if i < at - 1 {
        LeTransitive(sorted[i], sorted[at - 1], key);
      }
    }
    r := sorted[..at] + [key] + sorted[at..];
    assert sorted == sorted[..at] + sorted[at..];
  }

  lemma SortedKeysOf(keys: set<string>, listed: seq<string>, sorted: seq<string>)
    requires ToSet(listed) == keys && |listed| == |keys|
    requires multiset(sorted) == multiset(listed)
    requires Sorted(sorted)
    ensures sorted == SortedKeys(keys)
  {
    forall key
      ensures key in sorted <==> key in listed
    {
      assert key in sorted <==> key in multiset(sorted);
      assert key in listed <==> key in multiset(listed);
    }
    assert |sorted| == |multiset(sorted)| == |multiset(listed)| == |listed|;
    DistinctWhenCounted(sorted, keys);
    SortedKeysListAll(keys);
    SortedUnique(sorted, SortedKeys(keys));
  }

  lemma {:induction false} DistinctWhenCounted(s: seq<string>, keys: set<string>)
    requires ToSet(s) == keys && |s| == |keys|
    ensures forall i, j :: 0 <= i < j < |s| ==> s[i] != s[j]
  {
    if s != [] {
      var rest := s[1..];
      CountAtMost(rest);
      assert keys == {s[0]} + ToSet(rest);
      var whole := {s[0]} + ToSet(rest);
      assert |whole| > |ToSet(rest)|;
      assert ToSet(rest) == keys - {s[0]};
      DistinctWhenCounted(rest, keys - {s[0]});
      assert forall i :: 0 < i < |s| ==> s[i] == rest[i - 1] && s[i] in ToSet(rest);
    }
  }

  lemma {:induction false} CountAtMost(s: seq<string>)
    ensures |ToSet(s)| <= |s|
  {
    if s != [] {
      CountAtMost(s[1..]);
      assert ToSet(s) == {s[0]} + ToSet(s[1..]);
    }
  }

  method MapToString(valueMap: StringMap) returns (r: string)
    ensures r == Print(valueMap.entries)
  {
    var m := valueMap.entries;
    var keys := CollectKeys(m);
    var sorted := SortStrings(keys);
    SortedKeysListAll(m.Keys);
    SortedKeysOf(m.Keys, keys, sorted);
    var ret := RenderItems(m, sorted);
    r := Join(ret, ',');
  }

  // for _, key := range keys { ret = append(ret, fmt.Sprintf("%s=%s", key, m[key])) }
  method RenderItems(m: Entries, keys: seq<string>) returns (ret: seq<string>)
    requires forall i :: 0 <= i < |keys| ==> keys[i] in m
    ensures ret == Items(m, keys)
  {
    ret := [];
    for i := 0 to |keys|
      invariant ret == Items(m, keys)[..i]
    {
      ret := ret + [keys[i] + "=" + m[keys[i]]];
    }
  }

  // for key := range m { keys = append(keys, key) }
  method CollectKeys(m: Entries) returns (keys: seq<string>)
    ensures ToSet(keys) == m.Keys && |keys| == |m.Keys|
  {
    keys := [];
    var todo := m.Keys;
    while todo != {}
      invariant todo <= m.Keys
      invariant ToSet(keys) == m.Keys - todo
      invariant |keys| == |m.Keys| - |todo|
      decreases |todo|
    {
      var key :| key in todo;
      assert ToSet(keys + [key]) == ToSet(keys) + {key};
      todo := todo - {key};
      keys := keys + [key];
    }
  }

  lemma MeaningStep(inputs: seq<string>, i: nat)
    requires i < |inputs|
    ensures Meaning(inputs[..i + 1]) == Parse(inputs[i]) + Meaning(inputs[..i])
  {
    assert inputs[..i + 1] == inputs[..i] + [inputs[i]];
    MeaningConcat(inputs[..i], [inputs[i]]);
    MeaningOne(inputs[i]);
  }

  method CombineValues(inputs: seq<string>) returns (r: string)
    ensures r == Combine(inputs)
  {
    var valueMap := new StringMap(map[]);
    for i := 0 to |inputs|
      invariant fresh(valueMap)
      invariant valueMap.entries == Meaning(inputs[..i])
    {
      ApplyValueStringToMap(valueMap, inputs[i]);
      MeaningStep(inputs, i);
    }
    assert inputs[..|inputs|] == inputs;
    r := MapToString(valueMap);
  }

  method RemoveKeys(input: string, keysToRemove: seq<string>) returns (r: string)
    ensures r == Remove(input, keysToRemove)
  {
    var valueMap := new StringMap(map[]);
    ApplyValueStringToMap(valueMap, input);
    assert valueMap.entries == Parse(input);
    valueMap.DeleteAll(keysToRemove);
    r := MapToString(valueMap);
  }
}
