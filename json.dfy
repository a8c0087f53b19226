/** JSON documents as the engine's artifacts hold them (RFC 8259 values),
    with Python dict semantics for objects: members keep insertion order,
    lookup is by name, assignment replaces in place or appends.  The byte
    level encoder and decoder are not modelled; `SortKeys` models the
    `sort_keys=True` canonicalisation the serve hash relies on. */
module Json {
  import opened Common

  datatype Json =
    | JNull
    | JBool(b: bool)
    | JInt(i: int)
    | JNum(r: real)
    | JStr(s: string)
    | JArr(items: seq<Json>)
    | JObj(fields: seq<Field>)

  datatype Field = Field(name: string, value: Json)

  /** Byte-level codecs, abstract: `Encode` is json.dumps(...).encode(),
      `Decode` is json.load, None when the bytes are not a JSON document. */
  type Encoder = Json -> seq<Byte>
  type Decoder = seq<Byte> -> Option<Json>

  /** Python truthiness of a decoded value (`if not x`). */
  predicate Truthy(j: Json)
  {
    match j
    case JNull => false
    case JBool(b) => b
    case JInt(i) => i != 0
    case JNum(r) => r != 0.0
    case JStr(s) => s != []
    case JArr(items) => items != []
    case JObj(fields) => fields != []
  }

  /** `d[name]` / `d.get(name)`: the member with that name, if any. */
  function Get(fields: seq<Field>, name: string): (r: Option<Json>)
  {
    if fields == [] then None
    else if fields[0].name == name then Some(fields[0].value)
    else Get(fields[1..], name)
  }

  /** A lookup finds a member that is there, and finds nothing exactly when
      no member carries the name. */
  lemma {:induction false} GetFacts(fields: seq<Field>, name: string)
    ensures Get(fields, name).Some? ==> exists i :: 0 <= i < |fields| && fields[i] == Field(name, Get(fields, name).value)
    ensures Get(fields, name).None? <==> forall i :: 0 <= i < |fields| ==> fields[i].name != name
  {
    if fields != [] && fields[0].name != name {
      GetFacts(fields[1..], name);
      if Get(fields, name).Some? {
        var i :| 0 <= i < |fields[1..]| && fields[1..][i] == Field(name, Get(fields, name).value);
        assert fields[i + 1] == fields[1..][i];
      }
      assert forall i :: 0 < i < |fields| ==> fields[i] == fields[1..][i - 1];
    }
  }

  /** A member whose name no other member carries is what a lookup of that
      name finds. */
  lemma GetUnique(fields: seq<Field>, i: int)
    requires 0 <= i < |fields|
    requires forall j :: 0 <= j < |fields| && j != i ==> fields[j].name != fields[i].name
    ensures Get(fields, fields[i].name) == Some(fields[i].value)
  {
    GetFacts(fields, fields[i].name);
  }

  /** `d.get(name, default)`. */
  function GetOr(fields: seq<Field>, name: string, default: Json): Json
  {
    match Get(fields, name)
    case Some(v) => v
    case None => default
  }

  /** `d[name] = v`: replaces the value in place, or appends a new member. */
  function Set(fields: seq<Field>, name: string, v: Json): (r: seq<Field>)
    ensures forall k :: Get(r, k) == if k == name then Some(v) else Get(fields, k)
    ensures |r| == |fields| || |r| == |fields| + 1
  {
    if fields == [] then [Field(name, v)]
    else if fields[0].name == name then [Field(name, v)] + fields[1..]
    else [fields[0]] + Set(fields[1..], name, v)
  }

  predicate DistinctNames(fields: seq<Field>)
  {
    forall i, j :: 0 <= i < j < |fields| ==> fields[i].name != fields[j].name
  }

  // ---------------------------------------------------------------------
  // json.dumps(..., sort_keys=True): members ordered by name at every level

  predicate NamesSorted(fields: seq<Field>)
  {
    forall i, j :: 0 <= i < j < |fields| ==> StrLess(fields[i].name, fields[j].name)
  }

  function InsertField(f: Field, sorted: seq<Field>): seq<Field>
  {
    if sorted == [] then [f]
    else if StrLess(sorted[0].name, f.name) then [sorted[0]] + InsertField(f, sorted[1..])
    else [f] + sorted
  }

  function SortFields(fields: seq<Field>): seq<Field>
  {
    if fields == [] then [] else InsertField(fields[0], SortFields(fields[1..]))
  }

  /** The canonical form json.dumps writes when asked to sort keys. */
  function SortKeys(j: Json): Json
    decreases j
  {
    match j
    case JArr(items) => JArr(seq(|items|, i requires 0 <= i < |items| => SortKeys(items[i])))
    case JObj(fields) => JObj(SortFields(CanonValues(fields)))
    case _ => j
  }

  function CanonValues(fields: seq<Field>): (r: seq<Field>)
    decreases fields, 0
    ensures |r| == |fields|
    ensures forall i :: 0 <= i < |fields| ==> r[i] == Field(fields[i].name, SortKeys(fields[i].value))
  {
    if fields == [] then [] else [Field(fields[0].name, SortKeys(fields[0].value))] + CanonValues(fields[1..])
  }

  /** What a member looks like once canonicalised. */
  function CanonGet(fields: seq<Field>, name: string): Option<Json>
  {
    match Get(fields, name)
    case Some(v) => Some(SortKeys(v))
    case None => None
  }

  /** A name below the head of a sorted list is below every name in it. */
  lemma SortedCons(f: Field, s: seq<Field>)
    requires NamesSorted(s) && (s != [] ==> StrLess(f.name, s[0].name))
    ensures NamesSorted([f] + s)
  {
    var r := [f] + s;
    forall i, j | 0 <= i < j < |r| ensures StrLess(r[i].name, r[j].name) {
      if i == 0 && j > 1 {
        StrLessTransitive(f.name, s[0].name, s[j - 1].name);
      }
    }
  }

  lemma {:induction false} InsertFieldGet(f: Field, s: seq<Field>)
    requires Get(s, f.name).None?
    ensures forall k :: Get(InsertField(f, s), k) == if k == f.name then Some(f.value) else Get(s, k)
    ensures |InsertField(f, s)| == |s| + 1
    ensures InsertField(f, s)[0] == f || InsertField(f, s)[0] == s[0]
  {
    if s != [] && StrLess(s[0].name, f.name) {
      InsertFieldGet(f, s[1..]);
    }
  }

  lemma {:induction false} InsertFieldFacts(f: Field, s: seq<Field>)
    requires NamesSorted(s) && Get(s, f.name).None?
    ensures NamesSorted(InsertField(f, s))
    ensures forall k :: Get(InsertField(f, s), k) == if k == f.name then Some(f.value) else Get(s, k)
    ensures |InsertField(f, s)| == |s| + 1
  {
    InsertFieldGet(f, s);
    if s == [] {
    } else if StrLess(s[0].name, f.name) {
      var t := s[1..];
      assert NamesSorted(t);
      InsertFieldFacts(f, t);
      InsertFieldGet(f, t);
      if t != [] {
        assert StrLess(s[0].name, t[0].name);
      }
      SortedCons(s[0], InsertField(f, t));
    } else {
      StrLessTotal(s[0].name, f.name);
      SortedCons(f, s);
    }
  }

  lemma {:induction false} SortFieldsFacts(fields: seq<Field>)
    requires DistinctNames(fields)
    ensures NamesSorted(SortFields(fields))
    ensures forall k :: Get(SortFields(fields), k) == Get(fields, k)
  {
    if fields != [] {
      var tail := fields[1..];
      assert DistinctNames(tail);
      SortFieldsFacts(tail);
      GetFacts(tail, fields[0].name);
      InsertFieldFacts(fields[0], SortFields(tail));
    }
  }

  /** Every name a sorted list holds is its head's name or above it. */
  lemma HeadIsLeast(a: seq<Field>, k: string)
    requires NamesSorted(a) && a != [] && Get(a, k).Some?
    ensures k == a[0].name || StrLess(a[0].name, k)
  {
    GetFacts(a, k);
    var i :| 0 <= i < |a| && a[i].name == k;
  }

  /** Below the head of a sorted list, lookups are those of the list itself
      except for the head's own name. */
  lemma TailLookup(a: seq<Field>, k: string)
    requires NamesSorted(a) && a != []
    ensures Get(a[1..], k) == if k == a[0].name then None else Get(a, k)
  {
    if k == a[0].name && Get(a[1..], k).Some? {
      GetFacts(a[1..], k);
      var i :| 0 <= i < |a[1..]| && a[1..][i].name == k;
      assert StrLess(a[0].name, a[i + 1].name);
      StrLessIrreflexive(k);
    }
  }

  /** Two name-sorted member lists that answer every lookup alike are equal. */
  lemma {:induction false} SortedListsWithSameLookupsAreEqual(a: seq<Field>, b: seq<Field>)
    requires NamesSorted(a) && NamesSorted(b)
    requires forall k :: Get(a, k) == Get(b, k)
    ensures a == b
    decreases |a| + |b|
  {
    if a != [] {
      assert Get(b, a[0].name) == Get(a, a[0].name);
    }
    if b != [] {
      assert Get(a, b[0].name) == Get(b, b[0].name);
    }
    if a != [] && b != [] {
      var x, y := a[0].name, b[0].name;
      HeadIsLeast(a, y);
      HeadIsLeast(b, x);
      if x != y {
        StrLessAsymmetric(x, y);
        assert false;
      }
      forall k ensures Get(a[1..], k) == Get(b[1..], k) {
        TailLookup(a, k);
        TailLookup(b, k);
      }
      assert NamesSorted(a[1..]) && NamesSorted(b[1..]);
      SortedListsWithSameLookupsAreEqual(a[1..], b[1..]);
      assert a == [a[0]] + a[1..] && b == [b[0]] + b[1..];
    }
  }

  lemma {:induction false} CanonValuesGet(fields: seq<Field>)
    ensures forall k :: Get(CanonValues(fields), k) == CanonGet(fields, k)
  {
    if fields != [] {
      CanonValuesGet(fields[1..]);
      assert CanonValues(fields)[1..] == CanonValues(fields[1..]);
    }
  }

  lemma CanonValuesDistinct(fields: seq<Field>)
    requires DistinctNames(fields)
    ensures DistinctNames(CanonValues(fields))
  {
  }

  /** sort_keys makes the encoding independent of insertion order: two
      objects with the same members (each compared canonically) encode alike. */
  lemma SortKeysIgnoresInsertionOrder(p: seq<Field>, q: seq<Field>)
    requires DistinctNames(p) && DistinctNames(q)
    requires forall k :: CanonGet(p, k) == CanonGet(q, k)
    ensures SortKeys(JObj(p)) == SortKeys(JObj(q))
  {
    CanonValuesGet(p);
    CanonValuesGet(q);
    CanonValuesDistinct(p);
    CanonValuesDistinct(q);
    SortFieldsFacts(CanonValues(p));
    SortFieldsFacts(CanonValues(q));
    SortedListsWithSameLookupsAreEqual(SortFields(CanonValues(p)), SortFields(CanonValues(q)));
  }
}
