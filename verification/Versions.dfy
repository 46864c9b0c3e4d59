// Kubernetes versions and their precedence, as vendor/github.com/blang/semver compares them
// (section 11 of Semantic Versioning 2.0.0).
module Versions {
  import Strings

  datatype PreId = Num(n: nat) | Alpha(s: string)

  datatype Version = Version(major: nat, minor: nat, patch: nat, pre: seq<PreId>, build: seq<string>)

  function Release(major: nat, minor: nat, patch: nat): Version {
    Version(major, minor, patch, [], [])
  }

  function PreRelease(major: nat, minor: nat, patch: nat, pre: seq<PreId>): Version {
    Version(major, minor, patch, pre, [])
  }

  function CompareNat(a: nat, b: nat): int {
    if a == b then 0 else if a > b then 1 else -1
  }

  function ComparePreId(a: PreId, b: PreId): int {
    match (a, b)
    case (Num(_), Alpha(_)) => -1
    case (Alpha(_), Num(_)) => 1
    case (Num(m), Num(n)) => CompareNat(m, n)
    case (Alpha(s), Alpha(t)) => if s == t then 0 else if Strings.Le(t, s) then 1 else -1
  }

  // The loop over two non-empty pre-release lists; the longer one wins a tie.
  function ComparePre(a: seq<PreId>, b: seq<PreId>): int {
    if a == [] && b == [] then 0
    else if a == [] then -1
    else if b == [] then 1
    else
      var c := ComparePreId(a[0], b[0]);
      if c == 0 then ComparePre(a[1..], b[1..]) else c
  }

  function Compare(v: Version, o: Version): int {
    if v.major != o.major then CompareNat(v.major, o.major)
    else if v.minor != o.minor then CompareNat(v.minor, o.minor)
    else if v.patch != o.patch then CompareNat(v.patch, o.patch)
    else if v.pre == [] && o.pre == [] then 0
    else if v.pre == [] then 1
    else if o.pre == [] then -1
    else ComparePre(v.pre, o.pre)
  }

  // common.IsKubernetesVersionGe
  predicate Ge(actual: Version, version: Version) {
    Compare(actual, version) >= 0
  }

  lemma ComparePreIdFlip(a: PreId, b: PreId)
    ensures ComparePreId(a, b) == -ComparePreId(b, a)
    ensures ComparePreId(a, b) == 0 <==> a == b
  {
    if a.Alpha? && b.Alpha? && a.s != b.s {
      Strings.LeTotal(a.s, b.s);
      if Strings.Le(a.s, b.s) && Strings.Le(b.s, a.s) {
        Strings.LeAntisymmetric(a.s, b.s);
      }
    }
  }

  lemma ComparePreIdTransitive(a: PreId, b: PreId, c: PreId)
    requires ComparePreId(a, b) <= 0 && ComparePreId(b, c) <= 0
    ensures ComparePreId(a, c) <= 0
  {
    ComparePreIdFlip(a, b);
    ComparePreIdFlip(b, c);
    ComparePreIdFlip(a, c);
    if a.Alpha? && b.Alpha? && c.Alpha? && a != b && b != c {
      Strings.LeTotal(a.s, b.s);
      Strings.LeTotal(b.s, c.s);
      Strings.LeTransitive(a.s, b.s, c.s);
      if Strings.Le(c.s, a.s) {
        Strings.LeAntisymmetric(a.s, c.s);
      }
    }
  }

  lemma {:induction false} ComparePreFlip(a: seq<PreId>, b: seq<PreId>)
    ensures ComparePre(a, b) == -ComparePre(b, a)
    ensures ComparePre(a, b) == 0 <==> a == b
  {
    if a != [] && b != [] {
      ComparePreIdFlip(a[0], b[0]);
      ComparePreFlip(a[1..], b[1..]);
      assert a == [a[0]] + a[1..] && b == [b[0]] + b[1..];
    }
  }

  lemma {:induction false} ComparePreTransitive(a: seq<PreId>, b: seq<PreId>, c: seq<PreId>)
    requires ComparePre(a, b) <= 0 && ComparePre(b, c) <= 0
    ensures ComparePre(a, c) <= 0
  {
    if a != [] && b != [] && c != [] {
      ComparePreIdFlip(a[0], b[0]);
      ComparePreIdFlip(b[0], c[0]);
      ComparePreIdFlip(a[0], c[0]);
      ComparePreIdTransitive(a[0], b[0], c[0]);
      if a[0] == b[0] == c[0] {
        ComparePreTransitive(a[1..], b[1..], c[1..]);
      }
    }
  }

  // Precedence is a total preorder; versions tie exactly when they differ in build metadata only.
  lemma CompareFlip(v: Version, o: Version)
    ensures Compare(v, o) == -Compare(o, v)
    ensures Compare(v, o) == 0 <==> v.(build := []) == o.(build := [])
    ensures -1 <= Compare(v, o) <= 1
  {
    ComparePreFlip(v.pre, o.pre);
    ComparePreRange(v.pre, o.pre);
  }

  lemma ComparePreRange(a: seq<PreId>, b: seq<PreId>)
    ensures -1 <= ComparePre(a, b) <= 1
  {
  }

  lemma CompareTransitive(a: Version, b: Version, c: Version)
    requires Compare(a, b) <= 0 && Compare(b, c) <= 0
    ensures Compare(a, c) <= 0
    ensures Compare(a, c) == 0 ==> Compare(a, b) == 0 && Compare(b, c) == 0
  {
    if (a.major, a.minor, a.patch) == (b.major, b.minor, b.patch) == (c.major, c.minor, c.patch)
       && a.pre != [] && b.pre != [] && c.pre != [] {
      ComparePreTransitive(a.pre, b.pre, c.pre);
      ComparePreFlip(a.pre, c.pre);
      ComparePreFlip(a.pre, b.pre);
      ComparePreFlip(b.pre, c.pre);
    }
  }

  // A newer version passes every threshold an older one passes.
  // Between releases the major version decides, then the minor version, then the patch; a
  // prerelease comes before its release.
  lemma ReleasePrecedence(v: Version, o: Version)
    requires v.pre == []
    ensures Compare(v, o) > 0 <==>
              || v.major > o.major
              || (v.major == o.major && v.minor > o.minor)
              || (v.major == o.major && v.minor == o.minor && v.patch > o.patch)
              || (v.major == o.major && v.minor == o.minor && v.patch == o.patch && o.pre != [])
  {
  }

  // The example of section 11.
  lemma PrereleasePrecedence(number: Version)
    requires number == Release(1, 0, 0)
    ensures Compare(PreRelease(1, 0, 0, [Alpha("alpha")]), PreRelease(1, 0, 0, [Alpha("alpha"), Num(1)])) < 0
    ensures Compare(PreRelease(1, 0, 0, [Alpha("alpha"), Num(1)]), PreRelease(1, 0, 0, [Alpha("alpha"), Alpha("beta")])) < 0
    ensures Compare(PreRelease(1, 0, 0, [Alpha("alpha"), Alpha("beta")]), PreRelease(1, 0, 0, [Alpha("beta")])) < 0
    ensures Compare(PreRelease(1, 0, 0, [Alpha("beta")]), PreRelease(1, 0, 0, [Alpha("beta"), Num(2)])) < 0
    ensures Compare(PreRelease(1, 0, 0, [Alpha("beta"), Num(2)]), PreRelease(1, 0, 0, [Alpha("beta"), Num(11)])) < 0
    ensures Compare(PreRelease(1, 0, 0, [Alpha("beta"), Num(11)]), PreRelease(1, 0, 0, [Alpha("rc"), Num(1)])) < 0
    ensures Compare(PreRelease(1, 0, 0, [Alpha("rc"), Num(1)]), number) < 0
  {
    assert "alpha"[0] == 'a' && "beta"[0] == 'b' && "rc"[0] == 'r';
  }

  lemma GeMonotone(older: Version, newer: Version, threshold: Version)
    requires Ge(newer, older) && Ge(older, threshold)
    ensures Ge(newer, threshold)
  {
    CompareFlip(newer, older);
    CompareFlip(older, threshold);
    CompareFlip(newer, threshold);
    CompareTransitive(threshold, older, newer);
  }
}
