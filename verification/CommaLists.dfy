// RemoveFromCommaSeparatedList of pkg/api/common/flags.go
module CommaLists {
  import opened Strings

  // What entries are compared by.
  function Key(name: string): string {
    ToLower(TrimSpace(name))
  }

  function Keys(names: seq<string>): set<string> {
    if names == [] then {} else Keys(names[..|names| - 1]) + {Key(names[|names| - 1])}
  }

  // The trimmed entries whose key is not to be removed, in order.
  function Kept(values: seq<string>, gone: set<string>): seq<string> {
    if values == [] then []
    else if Key(values[0]) in gone then Kept(values[1..], gone)
    else [TrimSpace(values[0])] + Kept(values[1..], gone)
  }

  function RemoveFrom(input: string, toRemove: seq<string>): string {
    Join(Kept(Split(input, ','), Keys(toRemove)), ',')
  }

  ghost predicate Stays(value: string, gone: set<string>) {
    Key(value) !in gone && TrimSpace(value) == value
  }

  lemma TrimmedStays(value: string, gone: set<string>)
    requires Key(value) !in gone
    ensures Stays(TrimSpace(value), gone)
    ensures ',' !in value ==> ',' !in TrimSpace(value)
  {
    hide TrimSpace, ToLower;
    TrimSpaceIdempotent(value);
  }

  lemma {:induction false} KeptStays(values: seq<string>, gone: set<string>)
    requires forall i :: 0 <= i < |values| ==> ',' !in values[i]
    ensures forall i :: 0 <= i < |Kept(values, gone)| ==> Stays(Kept(values, gone)[i], gone) && ',' !in Kept(values, gone)[i]
  {
    hide Key, TrimSpace, Stays;
    if values != [] {
      KeptStays(values[1..], gone);
      if Key(values[0]) !in gone {
        TrimmedStays(values[0], gone);
      }
    }
  }

  lemma {:induction false} KeptUnchanged(values: seq<string>, gone: set<string>)
    requires forall i :: 0 <= i < |values| ==> Stays(values[i], gone)
    ensures Kept(values, gone) == values
  {
    hide Key, TrimSpace;
    if values != [] {
      KeptUnchanged(values[1..], gone);
    }
  }

  // Removing once removes for good.
  lemma RemoveFromIdempotent(input: string, toRemove: seq<string>)
    ensures RemoveFrom(RemoveFrom(input, toRemove), toRemove) == RemoveFrom(input, toRemove)
  {
    hide Key, TrimSpace, Keys, Stays;
    var gone := Keys(toRemove);
    var kept := Kept(Split(input, ','), gone);
    KeptStays(Split(input, ','), gone);
    if kept == [] {
      NothingKept(gone);
    } else {
      SplitJoin(kept, ',');
      KeptUnchanged(kept, gone);
    }
  }

  lemma NothingKept(gone: set<string>)
    ensures Join(Kept(Split("", ','), gone), ',') == ""
  {
    hide Key;
    assert TrimSpace("") == "";
  }

  // ---- What is left ----

  // No name to remove is this entry, but for case and outer spaces.
  ghost predicate Survives(entry: string, toRemove: seq<string>) {
    forall r :: r in toRemove ==> ToLower(TrimSpace(entry)) != ToLower(TrimSpace(r))
  }

  lemma {:induction false} KeysOf(names: seq<string>, key: string)
    ensures key in Keys(names) <==> exists i :: 0 <= i < |names| && ToLower(TrimSpace(names[i])) == key
  {
    hide TrimSpace, ToLower;
    if names != [] {
      KeysOf(names[..|names| - 1], key);
    }
  }

  lemma SurvivesMeans(entry: string, toRemove: seq<string>)
    ensures Key(entry) !in Keys(toRemove) <==> Survives(entry, toRemove)
  {
    hide TrimSpace, ToLower;
    KeysOf(toRemove, Key(entry));
    if Key(entry) in Keys(toRemove) {
      var i :| 0 <= i < |toRemove| && ToLower(TrimSpace(toRemove[i])) == Key(entry);
      assert toRemove[i] in toRemove;
    }
  }

  ghost predicate Increasing(at: seq<nat>) {
    forall m, n :: 0 <= m < n < |at| ==> at[m] < at[n]
  }

  ghost predicate Among(at: seq<nat>, j: nat) {
    exists n :: 0 <= n < |at| && at[n] == j
  }

  // Strictly ascending positions, and the entries there without outer spaces.
  ghost predicate Trimmed(values: seq<string>, at: seq<nat>, left: seq<string>) {
    && Increasing(at) && |left| == |at|
    && (forall n :: 0 <= n < |at| ==> at[n] < |values| && left[n] == TrimSpace(values[at[n]]))
  }

  // The positions are those of the surviving entries.
  ghost predicate Left(values: seq<string>, toRemove: seq<string>, at: seq<nat>, left: seq<string>) {
    && Trimmed(values, at, left)
    && (forall j :: 0 <= j < |values| ==> (Among(at, j) <==> Survives(values[j], toRemove)))
  }

  function Later(at: seq<nat>): (r: seq<nat>)
    ensures |r| == |at| && forall n :: 0 <= n < |at| ==> r[n] == at[n] + 1
  {
    seq(|at|, n requires 0 <= n < |at| => at[n] + 1)
  }

  lemma AmongLater(at: seq<nat>, j: nat)
    ensures Among(Later(at), j) <==> j > 0 && Among(at, j - 1)
  {
    if Among(Later(at), j) {
      var n :| 0 <= n < |Later(at)| && Later(at)[n] == j;
      assert at[n] == j - 1;
    }
    if j > 0 && Among(at, j - 1) {
      var n :| 0 <= n < |at| && at[n] == j - 1;
      assert Later(at)[n] == j;
    }
  }

  lemma AmongWithFirst(at: seq<nat>, j: nat)
    ensures Among([0] + at, j) <==> j == 0 || Among(at, j)
  {
    assert ([0] + at)[0] == 0;
    if Among(at, j) {
      var n :| 0 <= n < |at| && at[n] == j;
      assert ([0] + at)[n + 1] == j;
    }
  }

  lemma NothingLeft(values: seq<string>)
    ensures Trimmed(values, [], [])
  {
  }

  lemma TrimmedLater(values: seq<string>, at: seq<nat>, left: seq<string>, first: string)
    requires Trimmed(values, at, left)
    ensures Trimmed([first] + values, Later(at), left)
    ensures Trimmed([first] + values, [0] + Later(at), [TrimSpace(first)] + left)
  {
    hide TrimSpace;
  }

  lemma {:induction false} KeptLeft(values: seq<string>, toRemove: seq<string>) returns (at: seq<nat>)
    ensures Left(values, toRemove, at, Kept(values, Keys(toRemove)))
  {
    hide Key, Keys, Survives, TrimSpace, Among, Trimmed;
    if values == [] {
      at := [];
      NothingLeft(values);
    } else {
      var rest := KeptLeft(values[1..], toRemove);
      SurvivesMeans(values[0], toRemove);
      TrimmedLater(values[1..], rest, Kept(values[1..], Keys(toRemove)), values[0]);
      assert values == [values[0]] + values[1..];
      at := if Survives(values[0], toRemove) then [0] + Later(rest) else Later(rest);
      forall j | 0 <= j < |values| ensures Among(at, j) <==> Survives(values[j], toRemove) {
        AmongLater(rest, j);
        AmongWithFirst(Later(rest), j);
        assert j > 0 ==> values[1..][j - 1] == values[j];
      }
    }
  }

  // The result lists, in their order, the entries that survive.
  lemma RemoveFromMeans(input: string, toRemove: seq<string>)
    ensures exists at, left :: Left(Split(input, ','), toRemove, at, left) && RemoveFrom(input, toRemove) == Join(left, ',')
  {
    hide Keys, Kept, Split, Join, Left;
    var at := KeptLeft(Split(input, ','), toRemove);
  }

  // No entry of the result is a removed name.
  lemma NoneLeft(input: string, toRemove: seq<string>, entry: string)
    requires entry in Split(RemoveFrom(input, toRemove), ',')
    ensures Survives(entry, toRemove) || ToLower(TrimSpace(entry)) == ""
  {
    hide Key, TrimSpace, Keys, Stays, Split, Join, Survives;
    var values := Split(input, ',');
    var kept := Kept(values, Keys(toRemove));
    SplitClean(input);
    KeptStays(values, Keys(toRemove));
    if kept == [] {
      assert RemoveFrom(input, toRemove) == Join([], ',');
      SplitNothing();
      NothingTrimmed();
    } else {
      SplitJoin(kept, ',');
      var i :| 0 <= i < |kept| && kept[i] == entry;
      assert Stays(kept[i], Keys(toRemove));
      StaysSurvives(entry, toRemove);
    }
  }

  lemma NothingTrimmed()
    ensures ToLower(TrimSpace("")) == ""
  {
  }

  lemma SplitNothing()
    ensures Split(Join([], ','), ',') == [""]
  {
  }

  lemma StaysSurvives(entry: string, toRemove: seq<string>)
    requires Stays(entry, Keys(toRemove))
    ensures Survives(entry, toRemove)
  {
    hide Survives, Keys;
    SurvivesMeans(entry, toRemove);
  }

  lemma SplitClean(input: string)
    ensures forall i :: 0 <= i < |Split(input, ',')| ==> ',' !in Split(input, ',')[i]
  {
  }

  method RemoveFromCommaSeparatedList(input: string, toRemove: seq<string>) returns (r: string)
    ensures r == RemoveFrom(input, toRemove)
  {
    hide Key, TrimSpace;
    var removeMap: set<string> := {};
    for i := 0 to |toRemove|
      invariant removeMap == Keys(toRemove[..i])
    {
      assert toRemove[..i + 1][..i] == toRemove[..i];
      removeMap := removeMap + {Key(toRemove[i])};
    }
    assert toRemove[..|toRemove|] == toRemove;
    var values := Split(input, ',');
    var ret: seq<string> := [];
    for i := 0 to |values|
      invariant ret + Kept(values[i..], removeMap) == Kept(values, removeMap)
    {
      assert values[i..][1..] == values[i + 1..];
      if Key(values[i]) !in removeMap {
        ret := ret + [TrimSpace(values[i])];
      }
    }
    assert values[|values|..] == [] && ret + [] == ret;
    r := Join(ret, ',');
  }
}
