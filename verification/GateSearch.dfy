// strings.Contains(gates, "Name=true") on the printed form of a gate map: the kubelet code
// looks for a gate this way instead of parsing the string.
module GateSearch {
  import opened GoMaps
  import opened Strings
  import opened Gates

  lemma {:induction false} ContainsInOnePart(parts: seq<string>, sub: string)
    requires sub != "" && ',' !in sub
    requires Contains(Join(parts, ','), sub)
    ensures exists i :: 0 <= i < |parts| && Contains(parts[i], sub)
  {
    var at: nat :| at <= |Join(parts, ',')| && OccursAt(Join(parts, ','), sub, at);
    if |parts| == 1 {
      assert Contains(parts[0], sub);
    } else if |parts| > 1 {
      var head, rest := parts[0], Join(parts[1..], ',');
      var whole := head + [','] + rest;
      assert whole == Join(parts, ',');
      assert forall k :: at <= k < at + |sub| ==> whole[k] == sub[k - at];
      assert whole[|head|] == ',';
      if at + |sub| <= |head| {
        assert OccursAt(head, sub, at) by {
          assert head[at..at + |sub|] == whole[at..at + |sub|];
        }
        assert Contains(parts[0], sub);
      } else if at > |head| {
        assert OccursAt(rest, sub, at - |head| - 1) by {
          assert rest[at - |head| - 1..at - |head| - 1 + |sub|] == whole[at..at + |sub|];
        }
        ContainsInOnePart(parts[1..], sub);
        var i :| 0 <= i < |parts[1..]| && Contains(parts[1..][i], sub);
        assert Contains(parts[i + 1], sub);
      } else {
        assert false;
      }
    }
  }

  lemma {:induction false} PartInJoin(parts: seq<string>, i: nat, sub: string)
    requires i < |parts| && Contains(parts[i], sub)
    ensures Contains(Join(parts, ','), sub)
  {
    if |parts| > 1 {
      var head, rest := parts[0], Join(parts[1..], ',');
      var whole := head + [','] + rest;
      if i == 0 {
        var at: nat :| at <= |head| && OccursAt(head, sub, at);
        assert whole[at..at + |sub|] == head[at..at + |sub|];
        assert OccursAt(whole, sub, at);
      } else {
        PartInJoin(parts[1..], i - 1, sub);
        var at: nat :| at <= |rest| && OccursAt(rest, sub, at);
        assert whole[at + |head| + 1..at + |head| + 1 + |sub|] == rest[at..at + |sub|];
        assert OccursAt(whole, sub, at + |head| + 1);
      }
    }
  }

  lemma OnlyEqualsSign(key: string, val: string, at: nat)
    requires '=' !in key && '=' !in val && at < |key| + 1 + |val|
    ensures (key + "=" + val)[at] == '=' ==> at == |key|
  {
    if at < |key| {
      assert (key + "=" + val)[at] == key[at];
    } else if at > |key| {
      assert (key + "=" + val)[at] == val[at - |key| - 1];
    }
  }

  lemma MatchAt(key: string, val: string, name: string, prefix: string, at: nat)
    requires '=' !in key && '=' !in val
    requires OccursAt(key + "=" + val, name + "=" + prefix, at)
    ensures HasSuffix(key, name) && prefix <= val
  {
    var s, sub := key + "=" + val, name + "=" + prefix;
    var found := s[at..at + |sub|];
    assert found == sub && sub == name + (['='] + prefix);
    assert sub[|name|] == '=';
    assert found[|name|] == s[at + |name|];
    OnlyEqualsSign(key, val, at + |name|);
    assert key[at..] == s[at..|key|] == found[..|name|] == sub[..|name|] == name;
    assert val[..|prefix|] == found[|name| + 1..] == sub[|name| + 1..] == prefix;
  }

  lemma MatchFrom(key: string, val: string, name: string, prefix: string)
    requires HasSuffix(key, name) && prefix <= val
    ensures Contains(key + "=" + val, name + "=" + prefix)
  {
    var at := |key| - |name|;
    assert key == key[..at] + name && val == prefix + val[|prefix|..];
    assert key + "=" + val == key[..at] + (name + "=" + prefix) + val[|prefix|..];
    ContainsAt(key[..at], name + "=" + prefix, val[|prefix|..]);
  }

  // Within one printed binding the search can only match around its equals sign.
  lemma ContainsInBinding(key: string, val: string, name: string, prefix: string)
    requires '=' !in key && '=' !in val
    ensures Contains(key + "=" + val, name + "=" + prefix) <==> HasSuffix(key, name) && prefix <= val
  {
    if Contains(key + "=" + val, name + "=" + prefix) {
      var at: nat :| at <= |key + "=" + val| && OccursAt(key + "=" + val, name + "=" + prefix, at);
      MatchAt(key, val, name, prefix, at);
    }
    if HasSuffix(key, name) && prefix <= val {
      MatchFrom(key, val, name, prefix);
    }
  }

  // The search finds a gate exactly if some bound key ends in its name and the value starts
  // with the searched one.
  lemma ContainsPrinted(m: Entries, name: string, prefix: string)
    requires Clean(m) && ',' !in name && ',' !in prefix
    ensures Contains(Print(m), name + "=" + prefix)
            <==> exists key :: key in m && HasSuffix(key, name) && prefix <= m[key]
  {
    hide Contains, HasSuffix;
    var sub, keys, items := name + "=" + prefix, SortedKeys(m.Keys), PrintedItems(m);
    SortedKeysListAll(m.Keys);
    if Contains(Print(m), sub) {
      ContainsInOnePart(items, sub);
      var i :| 0 <= i < |items| && Contains(items[i], sub);
      ContainsInBinding(keys[i], m[keys[i]], name, prefix);
    }
    if exists key :: key in m && HasSuffix(key, name) && prefix <= m[key] {
      var key :| key in m && HasSuffix(key, name) && prefix <= m[key];
      assert key in ToSet(keys);
      var i :| 0 <= i < |keys| && keys[i] == key;
      ContainsInBinding(key, m[key], name, prefix);
      PartInJoin(items, i, sub);
    }
  }

  // Pruning gates that do not end in the searched name, and merging defaults below the user's
  // gates again, does not lose a gate that was found.
  lemma FoundAgain(defaults: Entries, m: Entries, invalid: set<string>, name: string, prefix: string)
    requires Clean(m) && Clean(defaults) && ',' !in name && ',' !in prefix
    requires forall key :: key in invalid ==> !HasSuffix(key, name)
    requires Contains(Print(m), name + "=" + prefix)
    ensures Contains(Print(defaults + (m - invalid)), name + "=" + prefix)
  {
    hide Contains, HasSuffix, Print;
    ContainsPrinted(m, name, prefix);
    ContainsPrinted(defaults + (m - invalid), name, prefix);
    var key :| key in m && HasSuffix(key, name) && prefix <= m[key];
    assert key in m - invalid;
  }
}
