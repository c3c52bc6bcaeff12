/** How derived deserialisers read a parsed JSON document into typed
    records: a record with named fields, a 16-bit signed integer and a list
    of strings. A string field reads as Json.AsStr does. */
module Serde {
  import opened Results
  import opened Json

  /** The range of a 16-bit signed integer. */
  newtype Int16 = x: int | -0x8000 <= x < 0x8000

  /** The value of a record field read from an object: present when the key
      occurs exactly once. A second occurrence of a known field is an error;
      keys that are not fields of the record are ignored. */
  function Member(m: seq<(string, Json)>, key: string): (r: Option<Json>)
    ensures r.Some? ==> (key, r.value) in m
  {
    var vs := Occurrences(m, key);
    if |vs| == 1 then OccurrencesAreBindings(m, key); assert vs[0] in vs; Some(vs[0]) else None
  }

  /** A key that occurs at exactly one position is read from there. */
  lemma {:induction false} MemberAtUniqueBinding(m: seq<(string, Json)>, key: string, i: nat)
    requires i < |m| && m[i].0 == key
    requires forall j | 0 <= j < |m| && j != i :: m[j].0 != key
    ensures Member(m, key) == Some(m[i].1)
  {
    var init := m[..|m| - 1];
    assert m == init + [m[|m| - 1]];
    OccurrencesAppend(init, m[|m| - 1], key);
    if i < |m| - 1 {
      MemberAtUniqueBinding(init, key, i);
    } else {
      assert forall j | 0 <= j < |init| :: init[j] == m[j];
      assert Lookup(init, key).None?;
    }
  }

  /** A key bound twice is not a field value: the record is refused. */
  lemma {:induction false} MemberRepeated(m: seq<(string, Json)>, key: string, i: nat, j: nat)
    requires i < j < |m| && m[i].0 == key && m[j].0 == key
    ensures |Occurrences(m, key)| >= 2 && Member(m, key).None?
  {
    var init := m[..|m| - 1];
    assert m == init + [m[|m| - 1]];
    OccurrencesAppend(init, m[|m| - 1], key);
    if j == |m| - 1 {
      assert init[i] == m[i];
      OccurrencesAreBindings(init, key);
      assert m[i].1 in Occurrences(init, key);
    } else {
      assert init[i] == m[i] && init[j] == m[j];
      MemberRepeated(init, key, i, j);
    }
  }

  /** A key that no member carries is not a field value. */
  lemma MemberAbsent(m: seq<(string, Json)>, key: string)
    requires forall i | 0 <= i < |m| :: m[i].0 != key
    ensures Member(m, key).None?
  {
    assert Lookup(m, key).None?;
  }

  /** A field the record is read through agrees with the last-wins lookup. */
  lemma MemberIsLookup(m: seq<(string, Json)>, key: string)
    requires Member(m, key).Some?
    ensures Lookup(m, key) == Member(m, key)
  {
  }

  /** A member with another key, wherever it sits, does not affect a field. */
  lemma MemberIgnoresOtherKeys(m1: seq<(string, Json)>, p: (string, Json), m2: seq<(string, Json)>, key: string)
    requires p.0 != key
    ensures Member(m1 + [p] + m2, key) == Member(m1 + m2, key)
  {
    OccurrencesSkip(m1, p, m2, key);
  }

  /** The fields of a record with field names `names`, in declaration order.
      A record is read from an object that carries each field exactly once,
      or from an array holding exactly one value per field, in order. */
  function StructFields(v: Json, names: seq<string>): (r: Option<seq<Json>>)
    ensures r.Some? ==> |r.value| == |names|
    ensures v.Arr? ==> (r.Some? <==> |v.items| == |names|)
    ensures v.Arr? && r.Some? ==> r.value == v.items
    ensures !v.Arr? && !v.Obj? ==> r.None?
  {
    match v
    case Obj(m) =>
      if forall i | 0 <= i < |names| :: Member(m, names[i]).Some?
      then Some(seq(|names|, i requires 0 <= i < |names| => Member(m, names[i]).value))
      else None
    case Arr(a) => if |a| == |names| then Some(a) else None
    case _ => None
  }

  /** Read from an object, the fields are exactly the members named like them. */
  lemma StructFieldsOfObject(m: seq<(string, Json)>, names: seq<string>, f: seq<Json>)
    ensures StructFields(Obj(m), names) == Some(f)
        <==> |f| == |names| && forall i | 0 <= i < |names| :: Member(m, names[i]) == Some(f[i])
  {
    if |f| == |names| && forall i | 0 <= i < |names| :: Member(m, names[i]) == Some(f[i]) {
      assert StructFields(Obj(m), names).value == f;
    }
  }

  /** A record of one field read from an object. */
  lemma StructFieldsSingle(v: Json, a: string)
    ensures v.Obj? ==> StructFields(v, [a])
                       == if Member(v.members, a).Some? then Some([Member(v.members, a).value]) else None
  {
    if v.Obj? {
      if Member(v.members, a).Some? {
        StructFieldsOfObject(v.members, [a], [Member(v.members, a).value]);
      } else {
        StructFieldsMissing(v.members, [a], 0);
      }
    }
  }

  /** A record of two fields read from an object. */
  lemma StructFieldsPair(v: Json, a: string, b: string)
    ensures v.Obj? ==> StructFields(v, [a, b])
                       == if Member(v.members, a).Some? && Member(v.members, b).Some?
                          then Some([Member(v.members, a).value, Member(v.members, b).value]) else None
  {
    if v.Obj? {
      if Member(v.members, a).None? {
        StructFieldsMissing(v.members, [a, b], 0);
      } else if Member(v.members, b).None? {
        StructFieldsMissing(v.members, [a, b], 1);
      } else {
        StructFieldsOfObject(v.members, [a, b], [Member(v.members, a).value, Member(v.members, b).value]);
      }
    }
  }

  /** An object missing one field, or carrying it twice, is not the record. */
  lemma StructFieldsMissing(m: seq<(string, Json)>, names: seq<string>, i: nat)
    requires i < |names| && Member(m, names[i]).None?
    ensures StructFields(Obj(m), names).None?
  {
  }

  /** Keys that are not fields of the record are ignored wherever they are. */
  lemma StructFieldsIgnoreUnknown(m1: seq<(string, Json)>, p: (string, Json), m2: seq<(string, Json)>, names: seq<string>)
    requires p.0 !in names
    ensures StructFields(Obj(m1 + [p] + m2), names) == StructFields(Obj(m1 + m2), names)
  {
    forall i | 0 <= i < |names| ensures Member(m1 + [p] + m2, names[i]) == Member(m1 + m2, names[i]) {
      MemberIgnoresOtherKeys(m1, p, m2, names[i]);
    }
    var with, without := StructFields(Obj(m1 + [p] + m2), names), StructFields(Obj(m1 + m2), names);
    if with.Some? {
      StructFieldsOfObject(m1 + [p] + m2, names, with.value);
      StructFieldsOfObject(m1 + m2, names, with.value);
    } else if without.Some? {
      StructFieldsOfObject(m1 + [p] + m2, names, without.value);
      StructFieldsOfObject(m1 + m2, names, without.value);
    }
  }

  /** Only an integer literal within range reads as a 16-bit integer; a
      number written with a fraction or exponent is refused. */
  function DecodeInt16(v: Json): (r: Option<Int16>)
    ensures r.Some? <==> v.Num? && v.num.Int? && -0x8000 <= v.num.whole < 0x8000
    ensures r.Some? ==> v == Num(Int(r.value as int))
  {
    match v
    case Num(Int(i)) => if -0x8000 <= i < 0x8000 then Some(i as Int16) else None
    case _ => None
  }

  /** A list of strings reads from an array whose every element is a string. */
  function DecodeStrings(v: Json): (r: Option<seq<string>>)
    ensures r.Some? <==> v.Arr? && forall i | 0 <= i < |v.items| :: v.items[i].Str?
    ensures r.Some? ==> |r.value| == |v.items| && forall i | 0 <= i < |v.items| :: v.items[i] == Str(r.value[i])
  {
    match v
    case Arr(a) =>
      if forall i | 0 <= i < |a| :: a[i].Str?
      then Some(seq(|a|, i requires 0 <= i < |a| => a[i].str))
      else None
    case _ => None
  }
}
