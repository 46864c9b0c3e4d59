// pkg/api/strictjson.go: no object of a JSON document may have a key its Go type does not know.
module StrictJson {

  import opened Options
  import Strings

  datatype Json = Null | Scalar | Array(items: seq<Json>) | Object(members: map<string, Json>)

  // Other stands for the types that the check does not look into.
  datatype Type = Struct(name: string) | Slice(elem: Type) | Ptr(elem: Type) | Other

  // tag is the field's whole json tag, empty if it has none.
  datatype Field = Field(tag: string, typ: Type)

  // The fields of the struct types; they may refer to each other.
  type Env = string -> seq<Field>

  // The part of the tag before its first comma, in lower case.
  function KeyOf(f: Field): string {
    Strings.ToLower(Strings.Split(f.tag, ',')[0])
  }

  predicate Tagged(f: Field, key: string) {
    f.tag != "" && KeyOf(f) == Strings.ToLower(key)
  }

  function FieldsOf(env: Env, types: seq<Type>): seq<Field> {
    if types == [] then [] else
      FieldsOf(env, types[..|types| - 1])
      + (if types[|types| - 1].Struct? then env(types[|types| - 1].name) else [])
  }

  // The last field with the key, in any case, decides.
  function Lookup(fields: seq<Field>, key: string): (t: Option<Type>)
    ensures t.Some? <==> exists i :: 0 <= i < |fields| && Tagged(fields[i], key)
  {
    if fields == [] then None
    else if Tagged(fields[|fields| - 1], key) then Some(fields[|fields| - 1].typ)
    else Lookup(fields[..|fields| - 1], key)
  }

  function Deref(t: Type): Type {
    if t.Ptr? then t.elem else t
  }

  // The objects that are checked below a member, each with its type.
  function Children(t: Type, v: Json): (r: seq<(Type, Json)>)
    ensures forall i :: 0 <= i < |r| ==> r[i].1.Object? && (r[i].1 == v || (v.Array? && r[i].1 in v.items))
  {
    match (t, v)
    case (Struct(_), Object(_)) => [(t, v)]
    case (Ptr(elem), Object(_)) => [(elem, v)]
    case (Slice(elem), Array(items)) => ObjectsIn(Deref(elem), items)
    case _ => []
  }

  function ObjectsIn(t: Type, items: seq<Json>): (r: seq<(Type, Json)>)
    ensures forall i :: 0 <= i < |r| ==> r[i].1.Object? && r[i].1 in items
  {
    if items == [] then [] else
      (if items[0].Object? then [(t, items[0])] else []) + ObjectsIn(t, items[1..])
  }

  function ChildrenAt(env: Env, types: seq<Type>, o: Json, k: string): (r: seq<(Type, Json)>)
    requires o.Object? && k in o.members
    ensures forall i :: 0 <= i < |r| ==>
              r[i].1.Object? && (r[i].1 == o.members[k] || (o.members[k].Array? && r[i].1 in o.members[k].items))
  {
    var t := Lookup(FieldsOf(env, types), k);
    if t.None? then [] else Children(t.value, o.members[k])
  }

  predicate AllStructs(types: seq<Type>) {
    forall i :: 0 <= i < |types| ==> types[i].Struct?
  }

  // One object by itself: its types have fields, and these know all its keys.
  predicate Fine(env: Env, types: seq<Type>, o: Json)
    requires o.Object?
  {
    AllStructs(types) && forall k :: k in o.members ==> Lookup(FieldsOf(env, types), k).Some?
  }

  ghost predicate Accepts(env: Env, types: seq<Type>, o: Json)
    requires o.Object?
    decreases o
  {
    && Fine(env, types, o)
    && forall k, i :: k in o.members && 0 <= i < |ChildrenAt(env, types, o, k)| ==>
         Accepts(env, [ChildrenAt(env, types, o, k)[i].0], ChildrenAt(env, types, o, k)[i].1)
  }

  // ---- Reachable objects ----

  // A way down: the key of a member, and the position among the objects found there.
  type Path = seq<(string, nat)>

  // The object at the end of the path, if there is one, is fine.
  ghost predicate FineAt(env: Env, types: seq<Type>, o: Json, path: Path)
    requires o.Object?
    decreases |path|
  {
    if path == [] then Fine(env, types, o) else
      var (k, i) := path[0];
      k in o.members && i < |ChildrenAt(env, types, o, k)| ==>
        FineAt(env, [ChildrenAt(env, types, o, k)[i].0], ChildrenAt(env, types, o, k)[i].1, path[1..])
  }

  lemma {:induction false} AcceptedAlongPath(env: Env, types: seq<Type>, o: Json, path: Path)
    requires o.Object? && Accepts(env, types, o)
    ensures FineAt(env, types, o, path)
    decreases |path|
  {
    if path != [] {
      var (k, i) := path[0];
      if k in o.members && i < |ChildrenAt(env, types, o, k)| {
        var c := ChildrenAt(env, types, o, k)[i];
        AcceptedAlongPath(env, [c.0], c.1, path[1..]);
      }
    }
  }

  lemma {:induction false} RejectedSomewhere(env: Env, types: seq<Type>, o: Json) returns (path: Path)
    requires o.Object? && !Accepts(env, types, o)
    ensures !FineAt(env, types, o, path)
    decreases o
  {
    hide Fine, Lookup, Children, ChildrenAt;
    if !Fine(env, types, o) {
      path := [];
    } else {
      var k, i :| k in o.members && 0 <= i < |ChildrenAt(env, types, o, k)|
        && !Accepts(env, [ChildrenAt(env, types, o, k)[i].0], ChildrenAt(env, types, o, k)[i].1);
      var c := ChildrenAt(env, types, o, k)[i];
      var rest := RejectedSomewhere(env, [c.0], c.1);
      path := [(k, i)] + rest;
      assert path[1..] == rest;
    }
  }

  // Acceptance means that no reachable object has an unknown key.
  lemma AcceptedIffFineEverywhere(env: Env, types: seq<Type>, o: Json)
    requires o.Object?
    ensures Accepts(env, types, o) <==> forall path :: FineAt(env, types, o, path)
  {
    if Accepts(env, types, o) {
      forall path
        ensures FineAt(env, types, o, path)
      {
        AcceptedAlongPath(env, types, o, path);
      }
    } else {
      var path := RejectedSomewhere(env, types, o);
    }
  }

  // ---- The check ----

  datatype Check = Accepted | UnknownTag(key: string) | Crashed

  // createJSONFieldMap.  A type that is no struct has no fields to ask for.
  method CreateJSONFieldMap(env: Env, types: seq<Type>) returns (ok: bool, fieldMap: map<string, Field>)
    ensures ok <==> AllStructs(types)
    ensures ok ==> Represents(fieldMap, FieldsOf(env, types))
  {
    hide Represents, Lookup, KeyOf;
    fieldMap := map[];
    EmptyMap();
    for i := 0 to |types|
      invariant AllStructs(types[..i])
      invariant Represents(fieldMap, FieldsOf(env, types[..i]))
    {
      if !types[i].Struct? {
        return false, map[];
      }
      var fields := env(types[i].name);
      ghost var sofar := FieldsOf(env, types[..i]);
      assert sofar + fields[..0] == sofar;
      for j := 0 to |fields|
        invariant Represents(fieldMap, sofar + fields[..j])
      {
        AddField(fieldMap, sofar + fields[..j], fields[j]);
        assert sofar + fields[..j] + [fields[j]] == sofar + fields[..j + 1];
        if fields[j].tag != "" {
          fieldMap := fieldMap[KeyOf(fields[j]) := fields[j]];
        }
      }
      assert types[..i + 1][..i] == types[..i] && fields[..|fields|] == fields;
    }
    assert types[..|types|] == types;
    ok := true;
  }

  // The map finds what the list of fields says, whatever the case of the key.
  ghost predicate Represents(m: map<string, Field>, fields: seq<Field>) {
    forall key :: FindsAs(m, fields, key)
  }

  predicate FindsAs(m: map<string, Field>, fields: seq<Field>, key: string) {
    Lookup(fields, key) == if Strings.ToLower(key) in m then Some(m[Strings.ToLower(key)].typ) else None
  }

  lemma EmptyMap()
    ensures Represents(map[], [])
  {
    assert forall key :: FindsAs(map[], [], key);
  }

  lemma AddField(m: map<string, Field>, fields: seq<Field>, f: Field)
    requires Represents(m, fields)
    ensures Represents(if f.tag != "" then m[KeyOf(f) := f] else m, fields + [f])
  {
    var more := fields + [f];
    assert more[..|fields|] == fields;
    var m2 := if f.tag != "" then m[KeyOf(f) := f] else m;
    forall key
      ensures FindsAs(m2, more, key)
    {
      assert FindsAs(m, fields, key);
    }
  }

  // Every object the check can meet is met with a struct type.
  ghost predicate Structured(env: Env, types: seq<Type>, o: Json)
    requires o.Object?
    decreases o
  {
    && AllStructs(types)
    && forall k, i :: k in o.members && 0 <= i < |ChildrenAt(env, types, o, k)| ==>
         Structured(env, [ChildrenAt(env, types, o, k)[i].0], ChildrenAt(env, types, o, k)[i].1)
  }

  ghost predicate AllAccepted(env: Env, cs: seq<(Type, Json)>)
    requires forall i :: 0 <= i < |cs| ==> cs[i].1.Object?
  {
    forall i :: 0 <= i < |cs| ==> Accepts(env, [cs[i].0], cs[i].1)
  }

  ghost predicate AllStructured(env: Env, cs: seq<(Type, Json)>)
    requires forall i :: 0 <= i < |cs| ==> cs[i].1.Object?
  {
    forall i :: 0 <= i < |cs| ==> Structured(env, [cs[i].0], cs[i].1)
  }

  // checkMapKeys.
  method CheckMapKeys(env: Env, types: seq<Type>, o: Json) returns (r: Check)
    requires o.Object?
    ensures r == Accepted <==> Accepts(env, types, o)
    ensures Structured(env, types, o) ==> r != Crashed
    decreases o, 0
  {
    hide Lookup, Children, Accepts, Structured, AllAccepted, AllStructured;
    var ok, fieldMap := CreateJSONFieldMap(env, types);
    Unfold(env, types, o);
    if !ok {
      return Crashed;
    }
    ghost var fields := FieldsOf(env, types);
    var todo := o.members.Keys;
    while todo != {}
      invariant todo <= o.members.Keys
      invariant forall k :: k in o.members.Keys - todo ==>
                  Lookup(fields, k).Some? && AllAccepted(env, ChildrenAt(env, types, o, k))
      decreases |todo|
    {
      var k :| k in todo;
      todo := todo - {k};
      assert FindsAs(fieldMap, fields, k);
      if Strings.ToLower(k) !in fieldMap {
        return UnknownTag(k);
      }
      r := CheckBelow(env, fieldMap[Strings.ToLower(k)].typ, o.members[k]);
      if r != Accepted {
        return r;
      }
    }
    return Accepted;
  }

  lemma Unfold(env: Env, types: seq<Type>, o: Json)
    requires o.Object?
    ensures Accepts(env, types, o) <==>
            AllStructs(types)
            && forall k :: k in o.members ==>
                 Lookup(FieldsOf(env, types), k).Some? && AllAccepted(env, ChildrenAt(env, types, o, k))
    ensures Structured(env, types, o) <==>
            AllStructs(types) && forall k :: k in o.members ==> AllStructured(env, ChildrenAt(env, types, o, k))
  {
  }

  lemma OneChild(env: Env, t: Type, v: Json)
    requires v.Object?
    ensures AllAccepted(env, [(t, v)]) <==> Accepts(env, [t], v)
    ensures AllStructured(env, [(t, v)]) <==> Structured(env, [t], v)
  {
    hide Accepts, Structured;
    assert [(t, v)][0] == (t, v);
  }

  // The part of checkMapKeys that looks into one member.
  method CheckBelow(env: Env, t: Type, v: Json) returns (r: Check)
    ensures r == Accepted <==> AllAccepted(env, Children(t, v))
    ensures AllStructured(env, Children(t, v)) ==> r != Crashed
    decreases v, 1
  {
    hide Accepts, Structured;
    if t.Struct? && v.Object? {
      OneChild(env, t, v);
      r := CheckMapKeys(env, [t], v);
      return r;
    }
    if t.Slice? && v.Array? {
      var elementType := Deref(t.elem);
      ObjectsFrom(elementType, v.items);
      for i := 0 to |v.items|
        invariant forall j :: 0 <= j < i && v.items[j].Object? ==> Accepts(env, [elementType], v.items[j])
      {
        if v.items[i].Object? {
          var n := PositionOf(elementType, v.items, i);
          r := CheckMapKeys(env, [elementType], v.items[i]);
          if r != Accepted {
            return r;
          }
        }
      }
    }
    if t.Ptr? && v.Object? {
      OneChild(env, t.elem, v);
      r := CheckMapKeys(env, [t.elem], v);
      return r;
    }
    return Accepted;
  }

  lemma {:induction false} PositionOf(t: Type, items: seq<Json>, i: nat) returns (n: nat)
    requires i < |items| && items[i].Object?
    ensures n < |ObjectsIn(t, items)| && ObjectsIn(t, items)[n] == (t, items[i])
  {
    if i == 0 {
      n := 0;
    } else {
      n := PositionOf(t, items[1..], i - 1);
      n := n + if items[0].Object? then 1 else 0;
    }
  }

  lemma {:induction false} ObjectsFrom(t: Type, items: seq<Json>)
    ensures forall i :: 0 <= i < |ObjectsIn(t, items)| ==> ObjectsIn(t, items)[i].0 == t
  {
    if items != [] {
      ObjectsFrom(t, items[1..]);
    }
  }
}
