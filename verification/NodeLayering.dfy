// The kubelet flags of one node profile: inherited values below the profile's own flags,
// forced values above them, and a few late adjustments.  The same steps, with different
// layers, configure the cluster-wide kubelet flags, those of the masters and those of every
// agent pool.
module NodeLayering {
  import opened GoMaps
  import opened Options
  import opened Strings
  import opened Gates
  import opened Layering

  const PIDS := "--pod-max-pids"
  const TAINTS := "--register-with-taints"
  const PIDS_GATE := "SupportPodPidsLimit=true"

  // strconv.Atoi, None for its error
  function Digits(s: string, acc: int): Option<int> {
    if s == "" then Some(acc)
    else if '0' <= s[0] <= '9' then Digits(s[1..], 10 * acc + (s[0] as int - '0' as int))
    else None
  }

  function Atoi(s: string): Option<int> {
    var negative := s != "" && s[0] == '-';
    var digits := if s != "" && (s[0] == '-' || s[0] == '+') then s[1..] else s;
    if digits == "" then None
    else
      match Digits(digits, 0)
      case None => None
      case Some(n) =>
        if negative then (if n <= 0x8000_0000_0000_0000 then Some(n * -1) else None)
        else (if n < 0x8000_0000_0000_0000 then Some(n) else None)
  }

  // The upgrade step: without an explicit gate, or without a positive limit, the limit is off.
  predicate KeepsPids(m: Entries) {
    && Contains(GatesOf(m), PIDS_GATE)
    && Atoi(Get(m, PIDS)).Some? && Atoi(Get(m, PIDS)).value > 0
  }

  function CheckPids(m: Entries): Entries {
    if KeepsPids(m) then m else m[PIDS := "-1"]
  }

  // A taint is appended to the others unless its key occurs among them.
  datatype Taint = Taint(key: string, full: string)

  function AddTaint(m: Entries, taint: Taint): Entries {
    if TAINTS !in m then m[TAINTS := taint.full]
    else if Contains(m[TAINTS], taint.key) then m
    else m[TAINTS := m[TAINTS] + "," + taint.full]
  }

  datatype NodeLayers = NodeLayers(
    inherited: Entries,             // below the profile's own flags
    forced: Entries,                // above them
    gates: Option<seq<string>>,     // default gates, when they are merged at all
    checkPids: bool,                // an upgrade to 1.14 or later
    late: Entries,                  // defaults set after that
    lateForced: Entries,            // values forced after that
    removed: set<string>,
    invalid: seq<string>,
    taint: Option<Taint>)
  {
    ghost function MergedGates(found: string): string {
      match gates case None => found case Some(ds) => Combine([found] + ds)
    }

    function Own(m: Entries): Entries {
      (inherited + m) + forced
    }

    // The flags when the limit on process ids is checked.
    ghost function Merged(m: Entries): Entries {
      match gates
      case None => Own(m)
      case Some(_) => Own(m)[FEATURE_GATES := MergedGates(GatesOf(Own(m)))]
    }

    ghost function Checked(m: Entries): Entries {
      if checkPids then CheckPids(Merged(m)) else Merged(m)
    }

    ghost function Pruned(m: Entries): Entries {
      var kept := ((late + Checked(m)) + lateForced) - removed;
      kept[FEATURE_GATES := Remove(GatesOf(kept), invalid)]
    }

    ghost function Apply(m: Entries): Entries {
      match taint case None => Pruned(m) case Some(t) => AddTaint(Pruned(m), t)
    }

    // The steps after merging, one after the other.
    lemma Steps(m: Entries)
      ensures var checked := if checkPids then CheckPids(Merged(m)) else Merged(m);
              var kept := ((late + checked) + lateForced) - removed;
              var pruned := kept[FEATURE_GATES := Remove(GatesOf(kept), invalid)];
              Apply(m) == match taint case None => pruned case Some(t) => AddTaint(pruned, t)
    {
      hide Merged, CheckPids, AddTaint, Remove;
    }

    // The special flags are set by their own steps only.
    ghost predicate WellFormed() {
      && FEATURE_GATES !in forced && FEATURE_GATES !in late && FEATURE_GATES !in lateForced && FEATURE_GATES !in removed
      && PIDS !in forced && PIDS !in late && PIDS !in lateForced
      && TAINTS !in forced && TAINTS !in late && TAINTS !in lateForced && TAINTS !in removed
      && (taint.Some? ==> Contains(taint.value.full, taint.value.key))
    }

    // The value of an ordinary flag before the special steps.
    function Plain(m: Entries, key: string): Option<string> {
      if key in removed then None
      else if key in lateForced then Some(lateForced[key])
      else if key in forced then Some(forced[key])
      else if key in m then Some(m[key])
      else if key in inherited then Some(inherited[key])
      else Get?(late, key)
    }

    lemma MergedAt(m: Entries, key: string)
      ensures key != FEATURE_GATES ==> Get?(Merged(m), key) == Get?(Own(m), key)
      ensures GatesOf(Merged(m)) == MergedGates(GatesOf(Own(m)))
    {
      hide Combine, Own;
    }

    lemma CheckedAt(m: Entries, key: string)
      ensures Get?(Checked(m), key)
           == if key == PIDS && checkPids && !KeepsPids(Merged(m)) then Some("-1") else Get?(Merged(m), key)
    {
      hide Merged, KeepsPids;
    }

    lemma PrunedAt(m: Entries, key: string)
      requires key != FEATURE_GATES
      ensures Get?(Pruned(m), key) ==
              if key in removed then None
              else if key in lateForced then Some(lateForced[key])
              else if key in Checked(m) then Some(Checked(m)[key])
              else Get?(late, key)
    {
      hide Checked, Remove;
    }

    lemma PrunedGates(m: Entries)
      requires FEATURE_GATES !in late && FEATURE_GATES !in lateForced && FEATURE_GATES !in removed
      ensures FEATURE_GATES in Pruned(m) && GatesOf(Pruned(m)) == Remove(GatesOf(Checked(m)), invalid)
    {
      hide Checked, Remove;
    }

    lemma ApplyAt(m: Entries, key: string)
      requires key != TAINTS
      ensures Get?(Apply(m), key) == Get?(Pruned(m), key)
    {
      hide Pruned, Contains;
    }

    lemma OrdinaryFlag(m: Entries, key: string)
      requires WellFormed() && key != FEATURE_GATES && key != PIDS && key != TAINTS
      ensures Get?(Apply(m), key) == Plain(m, key)
    {
      hide Merged, Checked, Pruned, Apply;
      MergedAt(m, key);
      CheckedAt(m, key);
      PrunedAt(m, key);
      ApplyAt(m, key);
    }

    lemma PidsFlag(m: Entries)
      requires WellFormed() && PIDS !in removed
      ensures Get?(Apply(m), PIDS) == if checkPids && !KeepsPids(Merged(m)) then Some("-1") else Plain(m, PIDS)
      ensures Get(Merged(m), PIDS) == Get(Own(m), PIDS) && Get?(Own(m), PIDS) == Plain(m, PIDS)
    {
      hide Merged, Checked, Pruned, Apply, KeepsPids;
      Names();
      MergedAt(m, PIDS);
      CheckedAt(m, PIDS);
      PrunedAt(m, PIDS);
      ApplyAt(m, PIDS);
    }

    lemma GatesFlag(m: Entries)
      requires WellFormed()
      ensures FEATURE_GATES in Apply(m)
      ensures GatesOf(Merged(m)) == MergedGates(GatesOf(Own(m)))
      ensures GatesOf(Apply(m)) == Remove(MergedGates(GatesOf(Own(m))), invalid)
    {
      hide Merged, Checked, Pruned, Apply, Remove, MergedGates, KeepsPids;
      Names();
      MergedAt(m, FEATURE_GATES);
      CheckedAt(m, FEATURE_GATES);
      PrunedGates(m);
      ApplyAt(m, FEATURE_GATES);
    }

    lemma TaintsFlag(m: Entries)
      requires WellFormed()
      ensures Get?(Pruned(m), TAINTS) == Plain(m, TAINTS)
      ensures Get?(Apply(m), TAINTS) ==
              match taint
              case None => Plain(m, TAINTS)
              case Some(t) =>
                match Plain(m, TAINTS)
                case None => Some(t.full)
                case Some(old_) => if Contains(old_, t.key) then Some(old_) else Some(old_ + "," + t.full)
    {
      hide Merged, Checked, Pruned, Contains, KeepsPids;
      Names();
      MergedAt(m, TAINTS);
      CheckedAt(m, TAINTS);
      PrunedAt(m, TAINTS);
    }
  }

  lemma Names()
    ensures FEATURE_GATES != PIDS && FEATURE_GATES != TAINTS && PIDS != TAINTS
  {
    assert |FEATURE_GATES| == 15 && |PIDS| == 14 && |TAINTS| == 22;
  }

  // ---- Configuring twice ----

  lemma MergeTwice(gates: seq<string>, invalid: seq<string>, found: string)
    ensures var once := Remove(Combine([found] + gates), invalid);
            Remove(Combine([once] + gates), invalid) == once
  {
    hide Parse, Combine, Remove, Print;
    var once := Remove(Combine([found] + gates), invalid);
    MergeThenRemove(found, gates, invalid);
    MergeThenRemove(once, gates, invalid);
    MergeAgain(Meaning(gates), Parse(found), ToSet(invalid));
  }

  lemma MergeAgain(a: Entries, b: Entries, gone: set<string>)
    ensures (a + ((a + b) - gone)) - gone == (a + b) - gone
  {
  }

  lemma RemoveTwice(invalid: seq<string>, found: string)
    ensures Remove(Remove(found, invalid), invalid) == Remove(found, invalid)
  {
    hide Remove;
    RemoveUnion(found, invalid, invalid, invalid);
  }

  // The limit on process ids survives the first round but its gate does not.
  ghost predicate LosesPids(layers: NodeLayers, m: Entries) {
    && layers.checkPids && PIDS !in layers.removed
    && KeepsPids(layers.Merged(m))
    && !Contains(layers.MergedGates(Remove(layers.MergedGates(GatesOf(layers.Own(m))), layers.invalid)), PIDS_GATE)
  }

  lemma GatesTwice(layers: NodeLayers, m: Entries)
    requires layers.WellFormed()
    ensures GatesOf(layers.Apply(layers.Apply(m))) == GatesOf(layers.Apply(m))
    ensures GatesOf(layers.Merged(layers.Apply(m)))
         == layers.MergedGates(Remove(layers.MergedGates(GatesOf(layers.Own(m))), layers.invalid))
  {
    hide NodeLayers.Apply, NodeLayers.Merged, Combine, Remove;
    layers.GatesFlag(m);
    layers.GatesFlag(layers.Apply(m));
    assert GatesOf(layers.Own(layers.Apply(m))) == GatesOf(layers.Apply(m));
    match layers.gates {
      case None => RemoveTwice(layers.invalid, GatesOf(layers.Own(m)));
      case Some(ds) => MergeTwice(ds, layers.invalid, GatesOf(layers.Own(m)));
    }
  }

  // A sign is allowed, other characters are not, nor what does not fit into 64 bits.
  lemma AtoiExamples()
    ensures Atoi("") == None && Atoi("-") == None && Atoi("x") == None && Atoi("7 ") == None
    ensures Atoi("-7") == Some(-7) && Atoi("+7") == Some(7) && Atoi("42") == Some(42)
  {
    assert "-7"[1..] == "7" && "+7"[1..] == "7" && "7"[1..] == "" && "42"[1..] == "2" && "2"[1..] == "" && "7 "[1..] == " ";
    assert Digits("7", 0) == Digits("", 7) == Some(7);
    assert Digits("42", 0) == Digits("2", 4) == Digits("", 42) == Some(42);
    assert Digits("7 ", 0) == Digits(" ", 7) == None;
  }

  lemma AtoiRange(s: string, n: nat)
    requires Digits(s, 0) == Some(n) && s != "" && s[0] != '-' && s[0] != '+'
    ensures Atoi(s) == (if n <= 0x7fff_ffff_ffff_ffff then Some(n) else None)
    ensures Atoi("-" + s) == (if n <= 0x8000_0000_0000_0000 then Some(0 - n) else None)
  {
    assert ("-" + s)[1..] == s;
  }

  lemma AtoiMinusOne()
    ensures Atoi("-1") == Some(-1)
  {
    assert "-1"[1..] == "1";
    assert Digits("1", 0) == Digits("1"[1..], 1) == Some(1);
  }

  lemma PidsTwice(layers: NodeLayers, m: Entries)
    requires layers.WellFormed()
    ensures (Get?(layers.Apply(layers.Apply(m)), PIDS) == Get?(layers.Apply(m), PIDS)) <==> !LosesPids(layers, m)
  {
    hide NodeLayers.Apply, NodeLayers.Merged, Contains, Combine, Remove, Atoi;
    Names();
    if PIDS in layers.removed {
      PidsRemoved(layers, m);
      PidsRemoved(layers, layers.Apply(m));
    } else {
      AtoiMinusOne();
      layers.PidsFlag(m);
      layers.PidsFlag(layers.Apply(m));
      layers.GatesFlag(m);
      GatesTwice(layers, m);
    }
  }

  lemma PidsRemoved(layers: NodeLayers, m: Entries)
    requires layers.WellFormed() && PIDS in layers.removed
    ensures PIDS !in layers.Apply(m)
  {
    hide Combine, Remove, KeepsPids, Contains;
    Names();
  }

  lemma TaintsTwice(layers: NodeLayers, m: Entries)
    requires layers.WellFormed()
    ensures Get?(layers.Apply(layers.Apply(m)), TAINTS) == Get?(layers.Apply(m), TAINTS)
  {
    hide NodeLayers.Apply, NodeLayers.Pruned, Contains;
    layers.TaintsFlag(m);
    layers.TaintsFlag(layers.Apply(m));
    if layers.taint.Some? {
      var t := layers.taint.value;
      if layers.Plain(m, TAINTS).Some? {
        ContainedAtEnd(layers.Plain(m, TAINTS).value + ",", t.full, t.key);
      }
    }
  }

  lemma ContainedAtEnd(before: string, s: string, sub: string)
    requires Contains(s, sub)
    ensures Contains(before + s, sub)
  {
    var at: nat :| at <= |s| && OccursAt(s, sub, at);
    assert s == s[..at] + sub + s[at + |sub|..];
    assert before + s == (before + s[..at]) + sub + s[at + |sub|..];
    ContainsAt(before + s[..at], sub, s[at + |sub|..]);
  }

  // Configuring a profile twice equals configuring it once, unless the limit on process ids
  // is checked and its gate is lost between the rounds.
  lemma Twice(layers: NodeLayers, m: Entries)
    requires layers.WellFormed()
    ensures layers.Apply(layers.Apply(m)) == layers.Apply(m) <==> !LosesPids(layers, m)
  {
    hide NodeLayers.Apply, LosesPids, NodeLayers.Plain;
    PidsTwice(layers, m);
    if !LosesPids(layers, m) {
      GatesTwice(layers, m);
      layers.GatesFlag(m);
      layers.GatesFlag(layers.Apply(m));
      TaintsTwice(layers, m);
      forall key
        ensures Get?(layers.Apply(layers.Apply(m)), key) == Get?(layers.Apply(m), key)
      {
        if key != FEATURE_GATES && key != PIDS && key != TAINTS {
          OrdinaryTwice(layers, m, key);
        }
      }
      EntriesExtensional(layers.Apply(layers.Apply(m)), layers.Apply(m));
    }
  }

  lemma OrdinaryTwice(layers: NodeLayers, m: Entries, key: string)
    requires layers.WellFormed() && key != FEATURE_GATES && key != PIDS && key != TAINTS
    ensures Get?(layers.Apply(layers.Apply(m)), key) == Get?(layers.Apply(m), key)
  {
    hide NodeLayers.Apply;
    layers.OrdinaryFlag(m, key);
    layers.OrdinaryFlag(layers.Apply(m), key);
  }
}
