// getKubernetesAvailableUpgradeVersions of pkg/api/orchestrators.go, with the version lists of
// pkg/api/common/versions.go
module Upgrades {
  import opened Versions

  datatype Result<T> = Ok(value: T) | InvalidVersion

  predicate GT(v: Version, o: Version) { Compare(v, o) == 1 }

  predicate LT(v: Version, o: Version) { Compare(v, o) == -1 }

  // ---- The version lists ----

  predicate KeptGt(v: Version, min: Version, inclusive: bool, preReleases: bool) {
    (preReleases || v.pre == []) && (if inclusive then Compare(v, min) >= 0 else GT(v, min))
  }

  predicate KeptLt(v: Version, max: Version, inclusive: bool, preReleases: bool) {
    (preReleases || v.pre == []) && (if inclusive then Compare(v, max) <= 0 else LT(v, max))
  }

  // The versions that are kept, in their order and as often as they occur.
  function Only(versions: seq<Version>, kept: set<Version>): (r: seq<Version>)
    ensures |r| <= |versions|
    ensures forall v :: v in r <==> v in versions && v in kept
  {
    if versions == [] then [] else
      var last := versions[|versions| - 1];
      assert versions == versions[..|versions| - 1] + [last];
      Only(versions[..|versions| - 1], kept) + (if last in kept then [last] else [])
  }

  lemma OnlyOneMore(versions: seq<Version>, kept: set<Version>, i: nat)
    requires i < |versions|
    ensures Only(versions[..i + 1], kept) == Only(versions[..i], kept) + if versions[i] in kept then [versions[i]] else []
  {
    assert versions[..i + 1][..i] == versions[..i];
  }

  lemma OnlyAppended(versions: seq<Version>, v: Version, kept: set<Version>)
    ensures Only(versions + [v], kept) == Only(versions, kept) + if v in kept then [v] else []
  {
    assert (versions + [v])[..|versions|] == versions;
  }

  lemma NothingKept(first: set<Version>, second: set<Version>, both: set<Version>)
    ensures Only([], first) == Only([], second) == Only([], both) == []
  {
  }

  predicate Distinct(versions: seq<Version>) {
    forall i, j :: 0 <= i < j < |versions| ==> versions[i] != versions[j]
  }

  // Keeping versions twice keeps those that are kept both times.
  lemma {:induction false} OnlyTwice(versions: seq<Version>, first: set<Version>, second: set<Version>, both: set<Version>)
    requires forall v :: v in versions ==> (v in both <==> v in first && v in second)
    ensures Only(Only(versions, first), second) == Only(versions, both)
  {
    hide Only;
    if versions == [] {
      NothingKept(first, second, both);
      assert versions == [] && Only(versions, first) == [];
    } else {
      var n := |versions| - 1;
      OnlyTwice(versions[..n], first, second, both);
      assert versions == versions[..n] + [versions[n]];
      OnlyAppended(versions[..n], versions[n], first);
      OnlyAppended(versions[..n], versions[n], both);
      OnlyAppended(Only(versions[..n], first), versions[n], second);
      assert versions[n] in versions;
      if versions[n] !in first {
        assert Only(versions, first) == Only(versions[..n], first);
      }
    }
  }

  lemma {:induction false} OnlyDistinct(versions: seq<Version>, kept: set<Version>)
    requires Distinct(versions)
    ensures Distinct(Only(versions, kept))
  {
    if versions != [] {
      var n := |versions| - 1;
      OnlyDistinct(versions[..n], kept);
      assert versions[n] !in versions[..n];
    }
  }

  function AllGt(versions: seq<Version>, min: Version, inclusive: bool, preReleases: bool): set<Version> {
    set v | v in versions && KeptGt(v, min, inclusive, preReleases)
  }

  function AllLt(versions: seq<Version>, max: Version, inclusive: bool, preReleases: bool): set<Version> {
    set v | v in versions && KeptLt(v, max, inclusive, preReleases)
  }

  method GetVersionsGt(versions: seq<Version>, min: Version, inclusive: bool, preReleases: bool) returns (ret: seq<Version>)
    ensures ret == Only(versions, AllGt(versions, min, inclusive, preReleases))
  {
    hide Compare, Only;
    ret := [];
    assert Only(versions[..0], AllGt(versions, min, inclusive, preReleases)) == [];
    for i := 0 to |versions|
      invariant ret == Only(versions[..i], AllGt(versions, min, inclusive, preReleases))
    {
      OnlyOneMore(versions, AllGt(versions, min, inclusive, preReleases), i);
      var v := versions[i];
      if (preReleases || v.pre == []) && ((inclusive && Compare(v, min) >= 0) || (!inclusive && GT(v, min))) {
        ret := ret + [v];
      }
    }
    assert versions[..|versions|] == versions;
  }

  method GetVersionsLt(versions: seq<Version>, max: Version, inclusive: bool, preReleases: bool) returns (ret: seq<Version>)
    ensures ret == Only(versions, AllLt(versions, max, inclusive, preReleases))
  {
    hide Compare, Only;
    ret := [];
    assert Only(versions[..0], AllLt(versions, max, inclusive, preReleases)) == [];
    for i := 0 to |versions|
      invariant ret == Only(versions[..i], AllLt(versions, max, inclusive, preReleases))
    {
      OnlyOneMore(versions, AllLt(versions, max, inclusive, preReleases), i);
      var v := versions[i];
      if (preReleases || v.pre == []) && ((inclusive && Compare(v, max) <= 0) || (!inclusive && LT(v, max))) {
        ret := ret + [v];
      }
    }
    assert versions[..|versions|] == versions;
  }

  // v, as often as it occurs in a list.
  function Occurrences(v: Version, versions: seq<Version>): (r: seq<Version>)
    ensures forall w :: w in r ==> w == v
    ensures v in r <==> v in versions
  {
    if versions == [] then [] else
      var last := versions[|versions| - 1];
      assert versions == versions[..|versions| - 1] + [last];
      Occurrences(v, versions[..|versions| - 1]) + (if last == v then [v] else [])
  }

  lemma {:induction false} OccursOnce(v: Version, versions: seq<Version>)
    requires Distinct(versions)
    ensures Occurrences(v, versions) == if v in versions then [v] else []
  {
    if versions != [] {
      var n := |versions| - 1;
      OccursOnce(v, versions[..n]);
      assert versions[n] !in versions[..n];
      assert versions == versions[..n] + [versions[n]];
    }
  }

  lemma OneOccurrenceMore(v: Version, versions: seq<Version>, j: nat)
    requires j < |versions|
    ensures Occurrences(v, versions[..j + 1]) == Occurrences(v, versions[..j]) + if versions[j] == v then [v] else []
  {
    assert versions[..j + 1][..j] == versions[..j];
  }

  // Each version of the one list, as often as it occurs in the other.
  function Matches(versions: seq<Version>, others: seq<Version>): (r: seq<Version>)
    ensures forall v :: v in r <==> v in versions && v in others
  {
    if versions == [] then [] else
      var last := versions[|versions| - 1];
      assert versions == versions[..|versions| - 1] + [last];
      Matches(versions[..|versions| - 1], others) + Occurrences(last, others)
  }

  lemma NothingMatches(versions: seq<Version>, others: seq<Version>)
    requires versions == []
    ensures Matches(versions, others) == []
  {
  }

  lemma NoOccurrence(v: Version, versions: seq<Version>)
    requires versions == []
    ensures Occurrences(v, versions) == []
  {
  }

  lemma OneMatchMore(versions: seq<Version>, others: seq<Version>, i: nat)
    requires i < |versions|
    ensures Matches(versions[..i + 1], others) == Matches(versions[..i], others) + Occurrences(versions[i], others)
  {
    assert versions[..i + 1][..i] == versions[..i];
  }

  lemma {:induction false} MatchesOnce(versions: seq<Version>, others: seq<Version>, all: set<Version>)
    requires Distinct(others) && forall v :: v in all <==> v in others
    ensures Matches(versions, others) == Only(versions, all)
  {
    if versions != [] {
      MatchesOnce(versions[..|versions| - 1], others, all);
      OccursOnce(versions[|versions| - 1], others);
    }
  }

  lemma BetweenOnce(versions: seq<Version>, lower: set<Version>, upper: set<Version>)
    requires Distinct(versions)
    ensures Matches(Only(versions, upper), Only(versions, lower)) == Only(versions, lower * upper)
  {
    hide Matches, Only, Distinct;
    OnlyDistinct(versions, lower);
    var all := set v | v in Only(versions, lower);
    MatchesOnce(Only(versions, upper), Only(versions, lower), all);
    OnlyTwice(versions, upper, all, lower * upper);
  }

  // The two lists of matching versions; without repetitions among the given ones, those
  // between the bounds, in their order.
  method GetVersionsBetween(versions: seq<Version>, min: Version, max: Version, inclusive: bool, preReleases: bool)
    returns (ret: seq<Version>)
    ensures var pre := preReleases || min.pre != [];
            var lower, upper := AllGt(versions, min, inclusive, pre), AllLt(versions, max, inclusive, pre);
            && ret == Matches(Only(versions, upper), Only(versions, lower))
            && (forall v :: v in ret <==> v in lower * upper)
            && (Distinct(versions) ==> ret == Only(versions, lower * upper))
  {
    hide KeptGt, KeptLt, Only, Occurrences, Matches, Distinct;
    var pre := preReleases || min.pre != [];
    var greaterThan := GetVersionsGt(versions, min, inclusive, pre);
    var lessThan := GetVersionsLt(versions, max, inclusive, pre);
    ret := [];
    NothingMatches(lessThan[..0], greaterThan);
    for i := 0 to |lessThan|
      invariant ret == Matches(lessThan[..i], greaterThan)
    {
      ghost var before := ret;
      NoOccurrence(lessThan[i], greaterThan[..0]);
      for j := 0 to |greaterThan|
        invariant ret == before + Occurrences(lessThan[i], greaterThan[..j])
      {
        OneOccurrenceMore(lessThan[i], greaterThan, j);
        if lessThan[i] == greaterThan[j] {
          ret := ret + [lessThan[i]];
        }
      }
      assert greaterThan[..|greaterThan|] == greaterThan;
      OneMatchMore(lessThan, greaterThan, i);
    }
    assert lessThan[..|lessThan|] == lessThan;
    if Distinct(versions) {
      BetweenOnce(versions, AllGt(versions, min, inclusive, pre), AllLt(versions, max, inclusive, pre));
    }
  }

  // The least version of a list, which the code reads off the front of the sorted list.
  method GetMinVersion(versions: seq<Version>) returns (least: Version)
    requires versions != []
    ensures least in versions && forall v :: v in versions ==> Compare(least, v) <= 0
  {
    hide Compare;
    least := versions[0];
    CompareFlip(least, least);
    for i := 1 to |versions|
      invariant least in versions && forall v :: v in versions[..i] ==> Compare(least, v) <= 0
    {
      CompareFlip(versions[i], least);
      if LT(versions[i], least) {
        forall v | v in versions[..i]
          ensures Compare(versions[i], v) <= 0
        {
          CompareTransitive(versions[i], least, v);
        }
        CompareFlip(versions[i], versions[i]);
        least := versions[i];
      }
    }
  }

  // ---- What is offered ----

  ghost predicate IsLeastAbove(least: Version, current: Version, supported: seq<Version>) {
    least in supported && GT(least, current) && forall v :: v in supported && GT(v, current) ==> Compare(least, v) <= 0
  }

  // The first version that is too far away.
  function Barrier(current: Version, least: Version): Version {
    if current.major >= least.major && current.minor + 1 < least.minor
    then PreRelease(least.major, least.minor + 1, 0, [Alpha("alpha"), Num(0)])
    else PreRelease(current.major, current.minor + 2, 0, [Alpha("alpha"), Num(0)])
  }

  // The newest minor version offered.
  function TopMinor(current: Version, least: Version): nat {
    if least.major == current.major && least.minor > current.minor + 1 then least.minor else current.minor + 1
  }

  // v belongs to a minor version up to n, or comes before the first alpha of the next one.
  predicate UpToMinor(v: Version, n: nat) {
    v.minor <= n
    || (v.minor == n + 1 && v.patch == 0 && v.pre != [] && ComparePre(v.pre, [Alpha("alpha"), Num(0)]) < 0)
  }

  // v is offered as an upgrade of current: it is supported, newer, of the same major version,
  // and at most one minor version away, or else of the next supported minor version.
  ghost predicate Offered(current: Version, supported: seq<Version>, v: Version) {
    && v in supported && GT(v, current) && v.major == current.major
    && forall least :: IsLeastAbove(least, current, supported) ==> UpToMinor(v, TopMinor(current, least))
  }

  lemma BarrierMeaning(current: Version, least: Version, v: Version)
    requires GT(least, current) && GT(v, current) && Compare(least, v) <= 0
    ensures LT(v, Barrier(current, least)) <==> v.major == current.major && UpToMinor(v, TopMinor(current, least))
  {
    ComparePreRange(v.pre, [Alpha("alpha"), Num(0)]);
  }

  lemma LeastsAgree(a: Version, b: Version, current: Version, supported: seq<Version>)
    requires IsLeastAbove(a, current, supported) && IsLeastAbove(b, current, supported)
    ensures a.major == b.major && a.minor == b.minor
  {
    hide Compare;
    CompareFlip(a, b);
  }

  method GetKubernetesAvailableUpgradeVersions(orchestratorVersion: Result<Version>, supported: seq<Version>)
    returns (r: Result<seq<Version>>)
    ensures r.InvalidVersion? <==> orchestratorVersion.InvalidVersion?
    ensures r.Ok? ==> forall v :: v in r.value <==> Offered(orchestratorVersion.value, supported, v)
    ensures r.Ok? && Distinct(supported) ==> r.value == Only(supported, AllOffered(orchestratorVersion.value, supported))
  {
    hide Compare, UpToMinor, Only, Matches, Distinct;
    if orchestratorVersion.InvalidVersion? {
      return InvalidVersion;
    }
    var current := orchestratorVersion.value;
    var versionsGT := GetVersionsGt(supported, current, false, true);
    if |versionsGT| != 0 {
      var min := GetMinVersion(versionsGT);
      var skipUpgradeMinor;
      if current.major >= min.major && current.minor + 1 < min.minor {
        skipUpgradeMinor := PreRelease(min.major, min.minor + 1, 0, [Alpha("alpha"), Num(0)]);
      } else {
        skipUpgradeMinor := PreRelease(current.major, current.minor + 2, 0, [Alpha("alpha"), Num(0)]);
      }
      var between := GetVersionsBetween(supported, current, skipUpgradeMinor, false, true);
      assert IsLeastAbove(min, current, supported);
      forall v
        ensures v in between <==> Offered(current, supported, v)
      {
        OfferedBelowBarrier(current, supported, min, v);
      }
      assert AllGt(supported, current, false, true) * AllLt(supported, skipUpgradeMinor, false, true)
          == AllOffered(current, supported);
      return Ok(between);
    }
    forall v
      ensures !Offered(current, supported, v)
    {
      assert v in supported && GT(v, current) ==> v in versionsGT;
    }
    NothingOf(supported, AllOffered(current, supported));
    return Ok([]);
  }

  ghost function AllOffered(current: Version, supported: seq<Version>): set<Version> {
    set v | v in supported && Offered(current, supported, v)
  }

  lemma NothingOf(versions: seq<Version>, kept: set<Version>)
    requires kept == {}
    ensures Only(versions, kept) == []
  {
    assert forall v :: v !in Only(versions, kept);
  }

  lemma OfferedBelowBarrier(current: Version, supported: seq<Version>, min: Version, v: Version)
    requires IsLeastAbove(min, current, supported)
    ensures Offered(current, supported, v)
            <==> v in supported && GT(v, current) && LT(v, Barrier(current, min))
  {
    hide Compare, UpToMinor;
    if v in supported && GT(v, current) {
      BarrierMeaning(current, min, v);
      forall least | IsLeastAbove(least, current, supported)
        ensures TopMinor(current, least) == TopMinor(current, min)
      {
        LeastsAgree(least, min, current, supported);
      }
    }
  }

  // ---- Consequences ----

  predicate IsRelease(v: Version) { v.pre == [] }

  // For release versions the minor version alone decides.
  lemma OfferedReleases(current: Version, supported: seq<Version>, least: Version, v: Version)
    requires IsLeastAbove(least, current, supported) && IsRelease(v)
    ensures Offered(current, supported, v)
            <==> v in supported && GT(v, current) && v.major == current.major && v.minor <= TopMinor(current, least)
  {
    OfferedBelowBarrier(current, supported, least, v);
    if v in supported && GT(v, current) {
      BarrierMeaning(current, least, v);
    }
  }

  lemma LeastAboveExists(current: Version, supported: seq<Version>, v: Version)
    requires v in supported && GT(v, current)
    ensures exists least :: IsLeastAbove(least, current, supported)
    decreases |supported|
  {
    hide Compare;
    var init, last := supported[..|supported| - 1], supported[|supported| - 1];
    assert supported == init + [last];
    CompareFlip(last, last);
    if exists w :: w in init && GT(w, current) {
      var w :| w in init && GT(w, current);
      LeastAboveExists(current, init, w);
      var least :| IsLeastAbove(least, current, init);
      CompareFlip(least, last);
      if GT(last, current) && LT(last, least) {
        forall u | u in supported && GT(u, current)
          ensures Compare(last, u) <= 0
        {
          if u in init {
            CompareTransitive(last, least, u);
          }
        }
        assert IsLeastAbove(last, current, supported);
      } else {
        assert IsLeastAbove(least, current, supported);
      }
    } else {
      assert IsLeastAbove(last, current, supported);
    }
  }

  ghost predicate NoneOffered(current: Version, supported: seq<Version>) {
    forall v :: !Offered(current, supported, v)
  }

  // Nothing is offered exactly if nothing newer of the same major version is supported.
  lemma NothingOffered(current: Version, supported: seq<Version>)
    ensures NoneOffered(current, supported)
            <==> forall v :: v in supported && v.major == current.major ==> !GT(v, current)
  {
    hide Compare, UpToMinor;
    if v :| v in supported && v.major == current.major && GT(v, current) {
      LeastAboveExists(current, supported, v);
      var least :| IsLeastAbove(least, current, supported);
      LeastIsOffered(current, supported, least, v);
    }
  }

  lemma LeastIsOffered(current: Version, supported: seq<Version>, least: Version, v: Version)
    requires IsLeastAbove(least, current, supported)
    requires v in supported && v.major == current.major && GT(v, current)
    ensures Offered(current, supported, least)
  {
    CompareFlip(least, least);
    OfferedBelowBarrier(current, supported, least, least);
    BarrierMeaning(current, least, least);
  }

  // ---- Sequences of upgrades ----

  ghost predicate UpgradePath(path: seq<Version>, supported: seq<Version>) {
    path != [] && forall i :: 0 <= i < |path| - 1 ==> Offered(path[i], supported, path[i + 1])
  }

  ghost function Above(current: Version, supported: seq<Version>): set<Version> {
    set v | v in supported && GT(v, current)
  }

  // Every sequence of upgrades is finite: no longer than there are newer supported versions.
  lemma {:induction false} PathsEnd(path: seq<Version>, supported: seq<Version>)
    requires UpgradePath(path, supported)
    ensures |path| <= 1 + |Above(path[0], supported)|
  {
    hide Compare, UpToMinor;
    if |path| > 1 {
      var next := path[1];
      assert Offered(path[0], supported, next);
      assert UpgradePath(path[1..], supported) by {
        forall i | 0 <= i < |path[1..]| - 1
          ensures Offered(path[1..][i], supported, path[1..][i + 1])
        {
          assert Offered(path[i + 1], supported, path[i + 2]);
        }
      }
      PathsEnd(path[1..], supported);
      AboveShrinks(path[0], next, supported);
    }
  }

  lemma AboveShrinks(current: Version, next: Version, supported: seq<Version>)
    requires next in supported && GT(next, current)
    ensures |Above(next, supported)| < |Above(current, supported)|
  {
    hide Compare;
    forall v | v in Above(next, supported)
      ensures v in Above(current, supported) - {next}
    {
      CompareFlip(v, next);
      CompareFlip(next, current);
      CompareFlip(v, current);
      CompareTransitive(current, next, v);
    }
    SubsetSize(Above(next, supported), Above(current, supported) - {next});
  }

  lemma {:induction false} SubsetSize(a: set<Version>, b: set<Version>)
    requires a <= b
    ensures |a| <= |b|
  {
    if a != {} {
      var x :| x in a;
      SubsetSize(a - {x}, b - {x});
    }
  }

  lemma {:induction false} PathKeepsMajor(path: seq<Version>, supported: seq<Version>, i: nat)
    requires UpgradePath(path, supported) && i < |path|
    ensures path[i].major == path[0].major
  {
    hide Compare, UpToMinor;
    if i > 0 {
      PathKeepsMajor(path, supported, i - 1);
      assert Offered(path[i - 1], supported, path[i - 1 + 1]);
    }
  }

  // A sequence of upgrades continued until nothing is offered ends at a version no supported
  // version of that major version exceeds.
  lemma PathsEndAtNewest(path: seq<Version>, supported: seq<Version>)
    requires UpgradePath(path, supported)
    requires NoneOffered(path[|path| - 1], supported)
    ensures forall v :: v in supported && v.major == path[0].major ==> Compare(v, path[|path| - 1]) <= 0
    ensures |path| > 1 ==> path[|path| - 1] in supported
  {
    hide Compare, UpToMinor;
    var last := path[|path| - 1];
    PathKeepsMajor(path, supported, |path| - 1);
    NothingOffered(last, supported);
    forall v | v in supported && v.major == path[0].major
      ensures Compare(v, last) <= 0
    {
      CompareFlip(v, last);
    }
    if |path| > 1 {
      assert Offered(path[|path| - 2], supported, path[|path| - 2 + 1]);
    }
  }
}
