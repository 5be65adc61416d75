/**
 * Urd model descriptors and the schema adaptation a `TagResult` applies to
 * its model when it is built: every number/map field gains `<k>Plus` and
 * `<k>Rate` siblings, every string/list/text field a `<k>Plus` sibling,
 * structures are adapted recursively, and the `__$$` marker makes a second
 * adaptation do nothing.
 */
module TagSchema {
  import opened Wrappers
  import opened JsValues

  /** The `type` of a field descriptor; `OtherType` is any type the engine does not handle. */
  datatype FieldType =
    | NumberType | StringType | ListType | TextType | MapType | StructureType | CodeType
    | OtherType(name: string)

  /** A field descriptor `{ type, default, fields }`; `fields` is only read for structures. */
  datatype Field = Field(kind: FieldType, default: Value, fields: Model)

  datatype Entry = Entry(key: string, field: Field)

  /** A model object: its own entries in insertion order, and whether the `__$$` marker is set. */
  datatype Model = Model(entries: seq<Entry>, adapted: bool)

  const Marker: string := "__$$"

  /** JavaScript objects never hold a key twice. */
  predicate UniqueKeys(entries: seq<Entry>)
  {
    forall i, j :: 0 <= i < j < |entries| ==> entries[i].key != entries[j].key
  }

  function Keys(entries: seq<Entry>): set<string>
  {
    set e | e in entries :: e.key
  }

  /** `obj[key]`. */
  function Lookup(entries: seq<Entry>, key: string): Option<Field>
  {
    if entries == [] then None
    else if entries[0].key == key then Some(entries[0].field)
    else Lookup(entries[1..], key)
  }

  /** A key is found exactly when the object holds it. */
  lemma {:induction false} LookupKeys(entries: seq<Entry>, key: string)
    ensures Lookup(entries, key).Some? <==> key in Keys(entries)
  {
    if entries != [] {
      LookupKeys(entries[1..], key);
      KeysCons(entries[0], entries[1..]);
      assert [entries[0]] + entries[1..] == entries;
    }
  }

  /** `obj[key] = f`: an existing key keeps its place, a new key goes last. */
  function Put(entries: seq<Entry>, key: string, f: Field): seq<Entry>
  {
    if entries == [] then [Entry(key, f)]
    else if entries[0].key == key then [Entry(key, f)] + entries[1..]
    else [entries[0]] + Put(entries[1..], key, f)
  }

  /** Writing one key leaves every other key's value alone. */
  lemma {:induction false} PutLookup(entries: seq<Entry>, key: string, f: Field, k: string)
    ensures Lookup(Put(entries, key, f), k) == if k == key then Some(f) else Lookup(entries, k)
  {
    if entries != [] && entries[0].key != key {
      PutLookup(entries[1..], key, f, k);
    }
  }

  lemma {:induction false} KeysCons(e: Entry, rest: seq<Entry>)
    ensures Keys([e] + rest) == {e.key} + Keys(rest)
  {
    assert forall x :: x in [e] + rest <==> x == e || x in rest;
  }

  /** Writing a key adds it to the keys. */
  lemma {:induction false} PutKeys(entries: seq<Entry>, key: string, f: Field)
    ensures Keys(Put(entries, key, f)) == Keys(entries) + {key}
  {
    if entries != [] {
      KeysCons(entries[0], entries[1..]);
      assert [entries[0]] + entries[1..] == entries;
      if entries[0].key == key {
        KeysCons(Entry(key, f), entries[1..]);
      } else {
        PutKeys(entries[1..], key, f);
        KeysCons(entries[0], Put(entries[1..], key, f));
      }
    }
  }

  /** Writing a key keeps the keys distinct. */
  lemma {:induction false} PutUnique(entries: seq<Entry>, key: string, f: Field)
    requires UniqueKeys(entries)
    ensures UniqueKeys(Put(entries, key, f))
  {
    if entries != [] && entries[0].key != key {
      var tail := entries[1..];
      var rest := Put(tail, key, f);
      assert UniqueKeys(tail) by {
        forall i, j | 0 <= i < j < |tail| ensures tail[i].key != tail[j].key {
          assert tail[i] == entries[i + 1] && tail[j] == entries[j + 1];
        }
      }
      PutUnique(tail, key, f);
      PutKeys(tail, key, f);
      assert entries[0].key !in Keys(tail) by {
        forall e | e in tail ensures e.key != entries[0].key {
          var j :| 0 <= j < |tail| && tail[j] == e;
          assert entries[j + 1] == e;
        }
      }
      var r := [entries[0]] + rest;
      forall i, j | 0 <= i < j < |r| ensures r[i].key != r[j].key {
        assert r[j] == rest[j - 1];
        if i > 0 {
          assert r[i] == rest[i - 1];
        } else {
          assert rest[j - 1].key in Keys(rest);
        }
      }
    }
  }

  /** The sibling names `_adaptModel` writes for one original entry. */
  function Siblings(e: Entry): set<string>
  {
    match e.field.kind
    case NumberType => {e.key + "Plus", e.key + "Rate"}
    case MapType => {e.key + "Plus", e.key + "Rate"}
    case StringType => {e.key + "Plus"}
    case ListType => {e.key + "Plus"}
    case TextType => {e.key + "Plus"}
    case _ => {}
  }

  function SiblingNames(entries: seq<Entry>): set<string>
  {
    if entries == [] then {} else Siblings(entries[0]) + SiblingNames(entries[1..])
  }

  /** The field of the first original entry that has `name` as a sibling. */
  function SiblingOf(entries: seq<Entry>, name: string): (r: Option<Field>)
    ensures r.Some? <==> name in SiblingNames(entries)
  {
    if entries == [] then None
    else if name in Siblings(entries[0]) then Some(entries[0].field)
    else SiblingOf(entries[1..], name)
  }

  /** One loop iteration of `_adaptModel` on the current object, for the snapshot entry `e`. */
  function AdaptStep(cur: seq<Entry>, e: Entry, inner: Model): seq<Entry>
  {
    match e.field.kind
    case NumberType => Put(Put(cur, e.key + "Plus", e.field), e.key + "Rate", e.field)
    case MapType => Put(Put(cur, e.key + "Plus", e.field), e.key + "Rate", e.field)
    case StringType => Put(cur, e.key + "Plus", e.field)
    case ListType => Put(cur, e.key + "Plus", e.field)
    case TextType => Put(cur, e.key + "Plus", e.field)
    case StructureType =>
      // The nested `fields` object is adapted in place; the object still holds the
      // same descriptor under `e.key` unless an earlier sibling write replaced it.
      if Lookup(cur, e.key) == Some(e.field) then Put(cur, e.key, Field(StructureType, e.field.default, inner))
      else cur
    case _ => cur
  }

  /** What one iteration writes: the siblings of `e`, and the adapted structure if it is still in place. */
  lemma StepLookup(cur: seq<Entry>, e: Entry, inner: Model, name: string)
    ensures Lookup(AdaptStep(cur, e, inner), name) ==
      if name in Siblings(e) then Some(e.field)
      else if e.field.kind == StructureType && name == e.key && Lookup(cur, name) == Some(e.field) then
        Some(Field(StructureType, e.field.default, inner))
      else Lookup(cur, name)
  {
    var plus, rate := e.key + "Plus", e.key + "Rate";
    assert plus != rate by { assert plus[|e.key|..] != rate[|e.key|..]; }
    match e.field.kind {
      case NumberType =>
        PutLookup(cur, plus, e.field, name);
        PutLookup(Put(cur, plus, e.field), rate, e.field, name);
      case MapType =>
        PutLookup(cur, plus, e.field, name);
        PutLookup(Put(cur, plus, e.field), rate, e.field, name);
      case StringType => PutLookup(cur, plus, e.field, name);
      case ListType => PutLookup(cur, plus, e.field, name);
      case TextType => PutLookup(cur, plus, e.field, name);
      case StructureType =>
        if Lookup(cur, e.key) == Some(e.field) {
          PutLookup(cur, e.key, Field(StructureType, e.field.default, inner), name);
        }
      case _ =>
    }
  }

  lemma StepKeys(cur: seq<Entry>, e: Entry, inner: Model)
    ensures Keys(AdaptStep(cur, e, inner)) == Keys(cur) + Siblings(e)
  {
    var plus, rate := e.key + "Plus", e.key + "Rate";
    match e.field.kind {
      case NumberType =>
        PutKeys(cur, plus, e.field);
        PutKeys(Put(cur, plus, e.field), rate, e.field);
      case MapType =>
        PutKeys(cur, plus, e.field);
        PutKeys(Put(cur, plus, e.field), rate, e.field);
      case StringType => PutKeys(cur, plus, e.field);
      case ListType => PutKeys(cur, plus, e.field);
      case TextType => PutKeys(cur, plus, e.field);
      case StructureType =>
        if Lookup(cur, e.key) == Some(e.field) {
          PutKeys(cur, e.key, Field(StructureType, e.field.default, inner));
          LookupKeys(cur, e.key);
        }
      case _ =>
    }
  }

  /** `_adaptModel(obj)`: an adapted model is left alone. */
  function Adapt(m: Model): (r: Model)
    ensures r.adapted
    ensures m.adapted ==> r == m
    decreases m, 1
  {
    if m.adapted then m else Model(Run(m, |m.entries|), true)
  }

  /** The object after the first `n` iterations over the snapshot of `m`'s entries. */
  function Run(m: Model, n: nat): seq<Entry>
    requires n <= |m.entries|
    decreases m, 0, n
  {
    if n == 0 then m.entries
    else
      var e := m.entries[n - 1];
      AdaptStep(Run(m, n - 1), e, Adapt(e.field.fields))
  }

  lemma RunOneMore(m: Model, i: nat)
    requires i < |m.entries|
    ensures Run(m, i + 1) == AdaptStep(Run(m, i), m.entries[i], Adapt(m.entries[i].field.fields))
  {
  }

  lemma NestedSmaller(m: Model, i: nat)
    requires i < |m.entries|
    ensures m.entries[i].field.fields < m
  {
  }

  /** The descriptor a structure entry holds once its fields are adapted. */
  function AdaptedStructure(f: Field): Field
  {
    Field(StructureType, f.default, Adapt(f.fields))
  }

  /** What the adapted model holds under `name`. */
  function AdaptedLookup(entries: seq<Entry>, name: string): Option<Field>
  {
    match SiblingOf(entries, name)
    case Some(f) => Some(f)
    case None =>
      match Lookup(entries, name)
      case Some(f) => if f.kind == StructureType then Some(AdaptedStructure(f)) else Some(f)
      case None => None
  }

  /** One iteration of `_adaptModel`'s loop: the entry `e`, whose nested fields adapt to `inner`, writes into `obj`. */
  method AdaptEntry(obj: seq<Entry>, e: Entry, inner: Model) returns (r: seq<Entry>)
    ensures r == AdaptStep(obj, e, inner)
  {
    r := obj;
    match e.field.kind {
      case NumberType =>
        r := Put(r, e.key + "Plus", e.field);
        r := Put(r, e.key + "Rate", e.field);
      case MapType =>
        r := Put(r, e.key + "Plus", e.field);
        r := Put(r, e.key + "Rate", e.field);
      case StringType =>
        r := Put(r, e.key + "Plus", e.field);
      case ListType =>
        r := Put(r, e.key + "Plus", e.field);
      case TextType =>
        r := Put(r, e.key + "Plus", e.field);
      case StructureType =>
        if Lookup(r, e.key) == Some(e.field) {
          r := Put(r, e.key, Field(StructureType, e.field.default, inner));
        }
      case _ =>
    }
  }

  /** `_adaptModel`, on the model object it is given. */
  method AdaptModel(m: Model) returns (r: Model)
    ensures r == Adapt(m)
    decreases m
  {
    if m.adapted {
      return m;
    }
    var snapshot := m.entries;
    var obj := m.entries;
    var i := 0;
    while i < |snapshot|
      invariant 0 <= i <= |snapshot|
      invariant obj == Run(m, i)
    {
      var e := snapshot[i];
      NestedSmaller(m, i);
      var inner := AdaptModel(e.field.fields);
      obj := AdaptEntry(obj, e, inner);
      RunOneMore(m, i);
      i := i + 1;
    }
    r := Model(obj, true);
  }

  lemma {:induction false} LookupAppend(a: seq<Entry>, e: Entry, name: string)
    ensures Lookup(a + [e], name) ==
      if Lookup(a, name).Some? then Lookup(a, name) else if e.key == name then Some(e.field) else None
  {
    if a != [] {
      assert (a + [e])[1..] == a[1..] + [e];
      LookupAppend(a[1..], e, name);
    }
  }

  lemma {:induction false} SiblingOfAppend(a: seq<Entry>, e: Entry, name: string)
    ensures SiblingOf(a + [e], name) ==
      if SiblingOf(a, name).Some? then SiblingOf(a, name) else if name in Siblings(e) then Some(e.field) else None
  {
    if a != [] {
      assert (a + [e])[1..] == a[1..] + [e];
      SiblingOfAppend(a[1..], e, name);
    }
  }

  lemma {:induction false} SiblingNamesAppend(a: seq<Entry>, e: Entry)
    ensures SiblingNames(a + [e]) == SiblingNames(a) + Siblings(e)
  {
    if a != [] {
      assert (a + [e])[1..] == a[1..] + [e];
      SiblingNamesAppend(a[1..], e);
    }
  }

  lemma {:induction false} LookupUnique(entries: seq<Entry>, i: nat)
    requires UniqueKeys(entries) && i < |entries|
    ensures Lookup(entries, entries[i].key) == Some(entries[i].field)
    ensures entries[i].key !in Keys(entries[..i])
  {
    if i > 0 {
      LookupUnique(entries[1..], i - 1);
      assert entries[1..][..i - 1] == entries[..i][1..];
      assert forall e :: e in entries[..i] <==> e == entries[0] || e in entries[1..][..i - 1];
    }
  }

  /** A sibling name belongs to exactly one original key. */
  lemma SiblingOwner(a: Entry, b: Entry, name: string)
    requires name in Siblings(a) && name in Siblings(b)
    ensures a.key == b.key
  {
    var p, q := |a.key|, |b.key|;
    assert name == a.key + name[p..] && name == b.key + name[q..];
    assert name[p..] == "Plus" || name[p..] == "Rate";
    assert name[q..] == "Plus" || name[q..] == "Rate";
    assert |name| == p + 4 == q + 4;
    assert a.key == name[..p] && b.key == name[..q];
  }

  lemma {:induction false} SiblingOfPrefix(entries: seq<Entry>, n: nat, name: string)
    requires UniqueKeys(entries) && n < |entries| && name in Siblings(entries[n])
    ensures SiblingOf(entries[..n], name) == None
  {
    if SiblingOf(entries[..n], name).Some? {
      PrefixOwner(entries[..n], name);
      var j :| 0 <= j < n && name in Siblings(entries[j]);
      SiblingOwner(entries[j], entries[n], name);
      assert false;
    }
  }

  lemma {:induction false} PrefixOwner(entries: seq<Entry>, name: string)
    requires name in SiblingNames(entries)
    ensures exists j :: 0 <= j < |entries| && name in Siblings(entries[j])
  {
    if name !in Siblings(entries[0]) {
      PrefixOwner(entries[1..], name);
      var j :| 0 <= j < |entries[1..]| && name in Siblings(entries[1..][j]);
      assert name in Siblings(entries[j + 1]);
    }
  }

  /** The state after `n` iterations, described without the loop. */
  ghost predicate RunInvariant(m: Model, n: nat, name: string)
    requires n <= |m.entries|
  {
    var done := m.entries[..n];
    Lookup(Run(m, n), name) ==
      if SiblingOf(done, name).Some? then SiblingOf(done, name)
      else if Lookup(done, name).Some? && Lookup(done, name).value.kind == StructureType then
        Some(AdaptedStructure(Lookup(done, name).value))
      else Lookup(m.entries, name)
  }

  lemma {:induction false} RunStep(m: Model, n: nat, name: string)
    requires !m.adapted && UniqueKeys(m.entries) && n < |m.entries|
    requires RunInvariant(m, n, name)
    ensures RunInvariant(m, n + 1, name)
  {
    var e := m.entries[n];
    var done := m.entries[..n];
    assert m.entries[..n + 1] == done + [e];
    LookupAppend(done, e, name);
    SiblingOfAppend(done, e, name);
    var cur := Run(m, n);
    assert Run(m, n + 1) == AdaptStep(cur, e, Adapt(e.field.fields));
    StepLookup(cur, e, Adapt(e.field.fields), name);
    if name in Siblings(e) {
      SiblingOfPrefix(m.entries, n, name);
    } else if name == e.key {
      LookupUnique(m.entries, n);
      LookupKeys(done, name);
      if e.field.kind == StructureType {
        if SiblingOf(done, name).Some? {
          var g := SiblingOf(done, name).value;
          PrefixOwner(done, name);
          var j :| 0 <= j < |done| && name in Siblings(done[j]);
          assert g.kind != StructureType by { SiblingOfKind(done, name); }
        }
      }
    }
  }

  lemma {:induction false} SiblingOfKind(entries: seq<Entry>, name: string)
    requires SiblingOf(entries, name).Some?
    ensures SiblingOf(entries, name).value.kind != StructureType
  {
    if name !in Siblings(entries[0]) {
      SiblingOfKind(entries[1..], name);
    }
  }

  lemma {:induction false} RunAll(m: Model, n: nat, name: string)
    requires !m.adapted && UniqueKeys(m.entries) && n <= |m.entries|
    ensures RunInvariant(m, n, name)
  {
    if n == 0 {
      assert m.entries[..0] == [];
    } else {
      RunAll(m, n - 1, name);
      RunStep(m, n - 1, name);
    }
  }

  /**
   * After adaptation, a sibling name holds the descriptor of the field it was
   * made for, an original structure holds its adapted descriptor, and every
   * other original key keeps its descriptor.
   */
  lemma AdaptLookup(m: Model, name: string)
    requires !m.adapted && UniqueKeys(m.entries)
    ensures Lookup(Adapt(m).entries, name) == AdaptedLookup(m.entries, name)
  {
    RunAll(m, |m.entries|, name);
    assert m.entries[..|m.entries|] == m.entries;
  }

  lemma {:induction false} RunKeys(m: Model, n: nat)
    requires n <= |m.entries|
    ensures Keys(Run(m, n)) == Keys(m.entries) + SiblingNames(m.entries[..n])
  {
    if n == 0 {
      assert m.entries[..0] == [];
    } else {
      RunKeys(m, n - 1);
      var e := m.entries[n - 1];
      assert m.entries[..n] == m.entries[..n - 1] + [e];
      SiblingNamesAppend(m.entries[..n - 1], e);
      StepKeys(Run(m, n - 1), e, Adapt(e.field.fields));
    }
  }

  /** Adaptation adds exactly the sibling names of the original keys, and marks the model. */
  lemma AdaptKeys(m: Model)
    requires !m.adapted
    ensures Keys(Adapt(m).entries) == Keys(m.entries) + SiblingNames(m.entries)
    ensures Adapt(m).adapted
  {
    RunKeys(m, |m.entries|);
    assert m.entries[..|m.entries|] == m.entries;
  }

  /** A number or map field's `Plus` and `Rate` siblings, and a string/list/text field's `Plus` sibling, hold its descriptor. */
  lemma AdaptSiblings(m: Model, i: nat)
    requires !m.adapted && UniqueKeys(m.entries) && i < |m.entries|
    ensures var e := m.entries[i];
      forall name :: name in Siblings(e) ==> Lookup(Adapt(m).entries, name) == Some(e.field)
  {
    var e := m.entries[i];
    forall name | name in Siblings(e)
      ensures Lookup(Adapt(m).entries, name) == Some(e.field)
    {
      AdaptLookup(m, name);
      SiblingOfIs(m.entries, i, name);
    }
  }

  lemma {:induction false} SiblingOfIs(entries: seq<Entry>, i: nat, name: string)
    requires UniqueKeys(entries) && i < |entries| && name in Siblings(entries[i])
    ensures SiblingOf(entries, name) == Some(entries[i].field)
  {
    if i > 0 {
      if name in Siblings(entries[0]) {
        SiblingOwner(entries[0], entries[i], name);
        assert false;
      }
      SiblingOfIs(entries[1..], i - 1, name);
    }
  }

  /** The marker makes adaptation idempotent. */
  lemma AdaptIdempotent(m: Model)
    ensures Adapt(Adapt(m)) == Adapt(m)
  {
  }
}
