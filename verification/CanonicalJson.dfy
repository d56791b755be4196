/** The canonical form of a JSON value that the request fingerprints are taken over: object members sorted by
    key at every depth, everything else as it is. */
module CanonicalJson {
  import opened Prelude
  import opened Ordering

  /** An object is the list of its members in the order they were inserted. */
  datatype Json =
    | Null
    | Bool(flag: bool)
    | Number(digits: string)
    | Str(text: string)
    | Array(items: seq<Json>)
    | Object(members: seq<Member>)

  datatype Member = Member(key: string, value: Json)

  function Key(m: Member): string {
    m.key
  }

  /** What every JSON value in memory satisfies: no object holds a key twice. */
  ghost predicate WellFormed(v: Json) {
    match v
    case Array(items) => forall i :: 0 <= i < |items| ==> WellFormed(items[i])
    case Object(members) =>
      DistinctKeys(members, Key) && forall i :: 0 <= i < |members| ==> WellFormed(members[i].value)
    case _ => true
  }

  function Canonical(v: Json): Json {
    match v
    case Array(items) => Array(seq(|items|, i requires 0 <= i < |items| => Canonical(items[i])))
    case Object(members) =>
      var inner := seq(|members|, i requires 0 <= i < |members| => Member(members[i].key, Canonical(members[i].value)));
      Object(SortBy(inner, Key))
    case _ => v
  }

  /** The members with canonical values, in their old order. */
  ghost function Inner(members: seq<Member>): (r: seq<Member>)
    ensures |r| == |members|
    ensures forall i :: 0 <= i < |members| ==> r[i] == Member(members[i].key, Canonical(members[i].value))
  {
    seq(|members|, i requires 0 <= i < |members| => Member(members[i].key, Canonical(members[i].value)))
  }

  lemma CanonicalObject(members: seq<Member>)
    ensures Canonical(Object(members)) == Object(SortBy(Inner(members), Key))
  {
    assert seq(|members|, i requires 0 <= i < |members| => Member(members[i].key, Canonical(members[i].value)))
        == Inner(members);
  }

  /** The values differ only in the order of object members, at any depth. */
  ghost predicate Same(a: Json, b: Json) {
    match a
    case Array(items) =>
      b.Array? && |items| == |b.items| && forall i :: 0 <= i < |items| ==> Same(items[i], b.items[i])
    case Object(members) =>
      b.Object? && |members| == |b.members|
      && forall i :: 0 <= i < |members| ==>
           exists j :: 0 <= j < |b.members| && b.members[j].key == members[i].key
                       && Same(members[i].value, b.members[j].value)
    case _ => a == b
  }

  /** Every object lists its keys in strictly increasing order. */
  ghost predicate InNormalForm(v: Json) {
    match v
    case Array(items) => forall i :: 0 <= i < |items| ==> InNormalForm(items[i])
    case Object(members) =>
      StrictlySortedBy(members, Key) && forall i :: 0 <= i < |members| ==> InNormalForm(members[i].value)
    case _ => true
  }

  lemma {:induction false} NormalFormWellFormed(v: Json)
    requires InNormalForm(v)
    ensures WellFormed(v)
  {
    match v
    case Array(items) =>
      forall i | 0 <= i < |items| ensures WellFormed(items[i]) {
        NormalFormWellFormed(items[i]);
      }
    case Object(members) =>
      forall i | 0 <= i < |members| ensures WellFormed(members[i].value) {
        NormalFormWellFormed(members[i].value);
      }
      forall i, j | 0 <= i < j < |members| ensures Key(members[i]) != Key(members[j]) {
        Irreflexive(Key(members[i]));
      }
    case _ =>
  }

  lemma InnerDistinct(members: seq<Member>)
    requires DistinctKeys(members, Key)
    ensures DistinctKeys(Inner(members), Key) && Distinct(Inner(members))
  {
    var inner := Inner(members);
    forall i, j | 0 <= i < j < |inner| ensures Key(inner[i]) != Key(inner[j]) {
      assert Key(members[i]) != Key(members[j]);
    }
  }

  /** The canonical form is in normal form. */
  lemma {:induction false} CanonicalIsNormal(v: Json)
    requires WellFormed(v)
    ensures InNormalForm(Canonical(v))
  {
    match v
    case Array(items) =>
      forall i | 0 <= i < |items| ensures InNormalForm(Canonical(items[i])) {
        CanonicalIsNormal(items[i]);
      }
    case Object(members) =>
      CanonicalObject(members);
      InnerDistinct(members);
      SortStrict(Inner(members), Key);
      SortSorts(Inner(members), Key);
      var sorted := SortBy(Inner(members), Key);
      forall i | 0 <= i < |sorted| ensures InNormalForm(sorted[i].value) {
        assert sorted[i] in multiset(Inner(members));
        var j :| 0 <= j < |members| && Inner(members)[j] == sorted[i];
        CanonicalIsNormal(members[j].value);
      }
    case _ =>
  }

  /** The canonical form says what the value says. */
  lemma {:induction false} CanonicalSame(v: Json)
    ensures Same(Canonical(v), v)
  {
    match v
    case Array(items) =>
      forall i | 0 <= i < |items| ensures Same(Canonical(items[i]), items[i]) {
        CanonicalSame(items[i]);
      }
    case Object(members) =>
      CanonicalObject(members);
      SortSorts(Inner(members), Key);
      var sorted := SortBy(Inner(members), Key);
      forall i | 0 <= i < |sorted|
        ensures exists j :: 0 <= j < |members| && members[j].key == sorted[i].key
                            && Same(sorted[i].value, members[j].value)
      {
        assert sorted[i] in multiset(Inner(members));
        var j :| 0 <= j < |members| && Inner(members)[j] == sorted[i];
        CanonicalSame(members[j].value);
      }
    case _ =>
  }

  lemma {:induction false} SameCanonical(a: Json, b: Json)
    requires WellFormed(a) && WellFormed(b) && Same(a, b)
    ensures Canonical(a) == Canonical(b)
  {
    match a
    case Array(items) =>
      forall i | 0 <= i < |items| ensures Canonical(items[i]) == Canonical(b.items[i]) {
        SameCanonical(items[i], b.items[i]);
      }
    case Object(members) =>
      var s, t := Inner(members), Inner(b.members);
      CanonicalObject(members);
      CanonicalObject(b.members);
      InnerDistinct(members);
      InnerDistinct(b.members);
      forall i | 0 <= i < |s| ensures s[i] in t {
        var j :| 0 <= j < |b.members| && b.members[j].key == members[i].key
                 && Same(members[i].value, b.members[j].value);
        SameCanonical(members[i].value, b.members[j].value);
        assert t[j] == s[i];
      }
      ContainedPermutes(s, t);
      SortForgetsOrder(s, t, Key);
    case _ =>
  }

  lemma {:induction false} CanonicalEqualSame(a: Json, b: Json)
    requires Canonical(a) == Canonical(b)
    ensures Same(a, b)
  {
    match a
    case Array(items) =>
      assert |items| == |Canonical(a).items| == |b.items|;
      forall i | 0 <= i < |items| ensures Same(items[i], b.items[i]) {
        assert Canonical(a).items[i] == Canonical(b).items[i];
        CanonicalEqualSame(items[i], b.items[i]);
      }
    case Object(members) =>
      var s, t := Inner(members), Inner(b.members);
      CanonicalObject(members);
      CanonicalObject(b.members);
      SortSorts(s, Key);
      SortSorts(t, Key);
      forall i | 0 <= i < |members|
        ensures exists j :: 0 <= j < |b.members| && b.members[j].key == members[i].key
                            && Same(members[i].value, b.members[j].value)
      {
        assert s[i] in multiset(t);
        var j :| 0 <= j < |t| && t[j] == s[i];
        CanonicalEqualSame(members[i].value, b.members[j].value);
      }
    case _ =>
  }

  /** Two values canonicalise equally exactly when they differ only in the order of object members. */
  lemma CanonicalEqualIff(a: Json, b: Json)
    requires WellFormed(a) && WellFormed(b)
    ensures Canonical(a) == Canonical(b) <==> Same(a, b)
  {
    if Same(a, b) {
      SameCanonical(a, b);
    }
    if Canonical(a) == Canonical(b) {
      CanonicalEqualSame(a, b);
    }
  }

  /** A value is its own canonical form exactly when it is in normal form; canonicalising twice is canonicalising
      once. */
  lemma NormalFormIff(v: Json)
    requires WellFormed(v)
    ensures InNormalForm(v) <==> Canonical(v) == v
    ensures Canonical(Canonical(v)) == Canonical(v)
  {
    CanonicalIsNormal(v);
    NormalFormWellFormed(Canonical(v));
    CanonicalSame(v);
    SameCanonical(Canonical(v), v);
    if InNormalForm(v) {
      NormalFixed(v);
    }
  }

  lemma {:induction false} NormalFixed(v: Json)
    requires InNormalForm(v)
    ensures Canonical(v) == v
  {
    match v
    case Array(items) =>
      forall i | 0 <= i < |items| ensures Canonical(items[i]) == items[i] {
        NormalFixed(items[i]);
      }
      assert Canonical(v).items == items;
    case Object(members) =>
      CanonicalObject(members);
      forall i | 0 <= i < |members| ensures Inner(members)[i] == members[i] {
        NormalFixed(members[i].value);
      }
      assert Inner(members) == members;
      NormalFormWellFormed(v);
      SortSorts(members, Key);
      SortStrict(members, Key);
      StrictlySortedUnique(SortBy(members, Key), members, Key);
    case _ =>
  }
}
