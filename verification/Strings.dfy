// The few operations of Go's strings package that the configuration code relies on:
// Split and Join on a one-character separator, Trim of spaces, the byte-wise order
// behind sort.Strings, HasSuffix and Contains.
module Strings {

  // strings.Split(s, sep): never empty; the pieces between the separators.
  function Split(s: string, sep: char): (parts: seq<string>)
    ensures parts != []
    ensures forall i :: 0 <= i < |parts| ==> sep !in parts[i]
    ensures sep !in s ==> parts == [s]
  {
    if s == "" then [""]
    else
      var rest := Split(s[1..], sep);
      if s[0] == sep then [""] + rest
      else
        assert sep !in s ==> sep !in s[1..] && [s[0]] + s[1..] == s;
        [[s[0]] + rest[0]] + rest[1..]
  }

  // strings.Join(parts, sep)
  function Join(parts: seq<string>, sep: char): string {
    if parts == [] then ""
    else if |parts| == 1 then parts[0]
    else parts[0] + [sep] + Join(parts[1..], sep)
  }

  // A piece without separator followed by a separator is split off in front.
  lemma {:induction false} SplitHead(piece: string, rest: string, sep: char)
    requires sep !in piece
    ensures Split(piece + [sep] + rest, sep) == [piece] + Split(rest, sep)
  {
    var s := piece + [sep] + rest;
    if piece == "" {
      assert s[1..] == rest;
    } else {
      SplitHead(piece[1..], rest, sep);
      assert s[1..] == piece[1..] + [sep] + rest;
      assert [piece[0]] + piece[1..] == piece;
    }
  }

  // Split inverts Join as long as no part contains the separator.
  lemma {:induction false} SplitJoin(parts: seq<string>, sep: char)
    requires parts != []
    requires forall i :: 0 <= i < |parts| ==> sep !in parts[i]
    ensures Split(Join(parts, sep), sep) == parts
  {
    if |parts| > 1 {
      SplitJoin(parts[1..], sep);
      SplitHead(parts[0], Join(parts[1..], sep), sep);
      assert parts[0] + [sep] + Join(parts[1..], sep) == Join(parts, sep);
    }
  }

  // Join inverts Split without any condition.
  lemma {:induction false} JoinSplit(s: string, sep: char)
    ensures Join(Split(s, sep), sep) == s
  {
    if s != "" {
      JoinSplit(s[1..], sep);
      var rest := Split(s[1..], sep);
      if s[0] != sep {
        if |rest| > 1 {
          assert Split(s, sep)[1..] == rest[1..];
        }
      } else {
        assert Split(s, sep)[1..] == rest;
      }
    }
  }

  // strings.Trim(s, " ")
  function TrimLeft(s: string): (r: string)
    ensures r == "" || r[0] != ' '
  {
    if s != "" && s[0] == ' ' then TrimLeft(s[1..]) else s
  }

  function TrimRight(s: string): (r: string)
    ensures r == "" || r[|r| - 1] != ' '
    ensures r <= s
  {
    if s != "" && s[|s| - 1] == ' ' then TrimRight(s[..|s| - 1]) else s
  }

  function Trim(s: string): (r: string)
    ensures r == "" || (r[0] != ' ' && r[|r| - 1] != ' ')
  {
    TrimRight(TrimLeft(s))
  }

  // The order of sort.Strings.
  predicate Le(a: string, b: string) {
    a == "" || (b != "" && (a[0] < b[0] || (a[0] == b[0] && Le(a[1..], b[1..]))))
  }

  predicate Lt(a: string, b: string) {
    Le(a, b) && a != b
  }

  lemma LeTotal(a: string, b: string)
    ensures Le(a, b) || Le(b, a)
  {
    if a != "" && b != "" && a[0] == b[0] {
      LeTotal(a[1..], b[1..]);
    }
  }

  lemma {:induction false} LeAntisymmetric(a: string, b: string)
    requires Le(a, b) && Le(b, a)
    ensures a == b
  {
    if a != "" && b != "" {
      LeAntisymmetric(a[1..], b[1..]);
      assert a == [a[0]] + a[1..] && b == [b[0]] + b[1..];
    }
  }

  lemma {:induction false} LeTransitive(a: string, b: string, c: string)
    requires Le(a, b) && Le(b, c)
    ensures Le(a, c)
  {
    if a != "" && a[0] == b[0] && b[0] == c[0] {
      LeTransitive(a[1..], b[1..], c[1..]);
    }
  }

  predicate HasSuffix(s: string, suffix: string) {
    |suffix| <= |s| && s[|s| - |suffix|..] == suffix
  }

  // strings.Contains(s, sub)
  predicate OccursAt(s: string, sub: string, i: nat) {
    i + |sub| <= |s| && s[i..i + |sub|] == sub
  }

  predicate Contains(s: string, sub: string) {
    exists i: nat | i <= |s| :: OccursAt(s, sub, i)
  }

  lemma ContainsAt(before: string, sub: string, after: string)
    ensures Contains(before + sub + after, sub)
  {
    var s := before + sub + after;
    assert OccursAt(s, sub, |before|);
  }

  // unicode.IsSpace
  predicate IsSpace(c: char) {
    c in {'\t', '\n', '\U{0B}', '\U{0C}', '\r', ' ', '\U{85}', '\U{A0}', '\U{1680}', '\U{2028}', '\U{2029}',
          '\U{202F}', '\U{205F}', '\U{3000}'}
    || '\U{2000}' <= c <= '\U{200A}'
  }

  // strings.TrimSpace
  function TrimSpaceLeft(s: string): (r: string)
    ensures r == "" || !IsSpace(r[0])
    ensures |r| <= |s| && r == s[|s| - |r|..]
  {
    if s != "" && IsSpace(s[0]) then TrimSpaceLeft(s[1..]) else s
  }

  function TrimSpaceRight(s: string): (r: string)
    ensures r == "" || !IsSpace(r[|r| - 1])
    ensures r <= s
  {
    if s != "" && IsSpace(s[|s| - 1]) then TrimSpaceRight(s[..|s| - 1]) else s
  }

  function TrimSpace(s: string): string {
    TrimSpaceRight(TrimSpaceLeft(s))
  }

  lemma NothingToTrim(r: string)
    requires r == "" || (!IsSpace(r[0]) && !IsSpace(r[|r| - 1]))
    ensures TrimSpace(r) == r
  {
    hide IsSpace;
    assert TrimSpaceLeft(r) == r;
    assert TrimSpaceRight(r) == r;
  }

  lemma {:induction false} KeptLeft(s: string)
    ensures forall c :: c in TrimSpaceLeft(s) ==> c in s
  {
    hide IsSpace;
    if s != "" && IsSpace(s[0]) {
      KeptLeft(s[1..]);
    }
  }

  lemma {:induction false} KeptRight(s: string)
    ensures forall c :: c in TrimSpaceRight(s) ==> c in s
    ensures TrimSpaceRight(s) != "" ==> s != "" && TrimSpaceRight(s)[0] == s[0]
  {
    hide IsSpace;
    if s != "" && IsSpace(s[|s| - 1]) {
      KeptRight(s[..|s| - 1]);
    }
  }

  lemma TrimSpaceIdempotent(s: string)
    ensures TrimSpace(TrimSpace(s)) == TrimSpace(s)
    ensures forall c :: c in TrimSpace(s) ==> c in s
  {
    hide IsSpace, TrimSpaceLeft, TrimSpaceRight;
    KeptLeft(s);
    KeptRight(TrimSpaceLeft(s));
    NothingToTrim(TrimSpace(s));
  }

  // ---- What these functions mean ----

  predicate FirstLess(a: string, b: string, i: nat) {
    i < |a| && i < |b| && a[..i] == b[..i] && a[i] < b[i]
  }

  // The first position at which they differ decides; a beginning of a string comes before it.
  lemma {:induction false} LeMeans(a: string, b: string)
    ensures Le(a, b) <==> a <= b || exists i: nat :: FirstLess(a, b, i)
  {
    if a != [] && b != [] {
      if a[0] == b[0] {
        LeMeans(a[1..], b[1..]);
        LessLater(a, b);
        PrefixLater(a, b);
      } else {
        assert FirstLess(a, b, 0) <==> a[0] < b[0];
        forall i: nat | FirstLess(a, b, i)
          ensures i == 0 || a[0] == b[0]
        {
          SameStart(a, b, i);
        }
      }
    }
  }

  lemma SameStart(a: string, b: string, i: nat)
    requires FirstLess(a, b, i)
    ensures i == 0 || a[0] == b[0]
  {
    if i > 0 {
      assert a[..i][0] == b[..i][0];
    }
  }

  lemma LessLater(a: string, b: string)
    requires a != [] && b != [] && a[0] == b[0]
    ensures (exists i: nat :: FirstLess(a, b, i)) <==> exists i: nat :: FirstLess(a[1..], b[1..], i)
  {
    if i: nat :| FirstLess(a, b, i) {
      assert i > 0;
      assert a[1..][..i - 1] == a[..i][1..] && b[1..][..i - 1] == b[..i][1..];
      assert FirstLess(a[1..], b[1..], i - 1);
    }
    if i: nat :| FirstLess(a[1..], b[1..], i) {
      assert a[..i + 1] == [a[0]] + a[1..][..i] && b[..i + 1] == [b[0]] + b[1..][..i];
      assert FirstLess(a, b, i + 1);
    }
  }

  lemma PrefixLater(a: string, b: string)
    requires a != [] && b != [] && a[0] == b[0]
    ensures a <= b <==> a[1..] <= b[1..]
  {
    if a <= b {
      assert b[1..] == a[1..] + b[|a|..];
    }
    if a[1..] <= b[1..] {
      assert a == [a[0]] + a[1..] && b == [b[0]] + b[1..];
    }
  }

  // Only outer spaces are cut off, all of them.
  lemma TrimMeans(s: string) returns (i: nat, j: nat)
    ensures i <= j <= |s| && Trim(s) == s[i..j]
    ensures forall n :: 0 <= n < |s| && !(i <= n < j) ==> s[n] == ' '
    ensures i < j ==> s[i] != ' ' && s[j - 1] != ' '
  {
    hide TrimLeft, TrimRight;
    i := CutLeft(s);
    var left := TrimLeft(s);
    var n := CutRight(left);
    j := i + n;
    assert forall k :: i <= k < |s| ==> s[k] == left[k - i];
  }

  lemma {:induction false} CutLeft(s: string) returns (i: nat)
    ensures i <= |s| && TrimLeft(s) == s[i..] && forall n :: 0 <= n < i ==> s[n] == ' '
  {
    i := 0;
    if s != "" && s[0] == ' ' {
      var n := CutLeft(s[1..]);
      i := n + 1;
    }
  }

  lemma {:induction false} CutRight(s: string) returns (j: nat)
    ensures j <= |s| && TrimRight(s) == s[..j] && forall n :: j <= n < |s| ==> s[n] == ' '
  {
    j := |s|;
    if s != "" && s[|s| - 1] == ' ' {
      j := CutRight(s[..|s| - 1]);
    }
  }

  lemma TrimSpaceMeans(s: string) returns (i: nat, j: nat)
    ensures i <= j <= |s| && TrimSpace(s) == s[i..j]
    ensures forall n :: 0 <= n < |s| && !(i <= n < j) ==> IsSpace(s[n])
    ensures i < j ==> !IsSpace(s[i]) && !IsSpace(s[j - 1])
  {
    hide TrimSpaceLeft, TrimSpaceRight, IsSpace;
    i := CutSpaceLeft(s);
    var left := TrimSpaceLeft(s);
    var n := CutSpaceRight(left);
    j := i + n;
    assert forall k :: i <= k < |s| ==> s[k] == left[k - i];
    if i < j {
      assert TrimSpaceRight(left) == s[i..j] && left[0] == s[i];
    }
  }

  lemma {:induction false} CutSpaceLeft(s: string) returns (i: nat)
    ensures i <= |s| && TrimSpaceLeft(s) == s[i..] && forall n :: 0 <= n < i ==> IsSpace(s[n])
  {
    hide IsSpace;
    i := 0;
    if s != "" && IsSpace(s[0]) {
      var n := CutSpaceLeft(s[1..]);
      i := n + 1;
    }
  }

  lemma {:induction false} CutSpaceRight(s: string) returns (j: nat)
    ensures j <= |s| && TrimSpaceRight(s) == s[..j] && forall n :: j <= n < |s| ==> IsSpace(s[n])
  {
    hide IsSpace;
    j := |s|;
    if s != "" && IsSpace(s[|s| - 1]) {
      j := CutSpaceRight(s[..|s| - 1]);
    }
  }

  // strings.ToLower on ASCII letters
  function LowerChar(c: char): char {
    if 'A' <= c <= 'Z' then c - 'A' + 'a' else c
  }

  function ToLower(s: string): (r: string)
    ensures |r| == |s|
  {
    if s == "" then "" else [LowerChar(s[0])] + ToLower(s[1..])
  }

  lemma {:induction false} LowerEach(s: string, r: string)
    requires |s| == |r| && forall i :: 0 <= i < |s| ==> r[i] == LowerChar(s[i])
    ensures ToLower(s) == r
  {
    if s != "" {
      LowerEach(s[1..], r[1..]);
    }
  }
}
