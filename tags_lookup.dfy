/**
 * How a `TagResult` of a battler finds raw values: the sources it consults
 * (states, then equips and current class for actors, then the battler's own
 * data object, falsy entries skipped), the walk down an interpreted note
 * along a path of getters, the main value (the first non-null value, else the
 * field's default) and the list of all non-null values.
 */
module TagLookup {
  import opened Wrappers
  import opened Seqs
  import opened JsValues
  import opened TagSchema
  import opened GameBattler

  /**
   * The Urd repositories, as the lookup consults them. `raw(source)` is the
   * interpreted `item` of the repository built from the note of `source`;
   * `holds(source, v)` is that repository's `exists(v)`; `isMethod(v, name)`
   * says whether `v[name]` is a function (a missing or falsy member is not);
   * `call(v, name, options)` is the awaited result of `v[name](options)`.
   */
  datatype Repository = Repository(
    raw: Value -> Value,
    holds: (Value, Value) -> bool,
    isMethod: (Value, string) -> bool,
    call: (Value, string, Value) -> Value)

  /** The value reached from `obj` by calling the getters named by `path` in turn; null when a step is impossible. */
  function Walk(repo: Repository, source: Value, obj: Value, path: seq<string>, options: Value): Value
    decreases |path|
  {
    if path == [] then obj
    else if !Truthy(obj) || !repo.holds(source, obj) then Null
    else if !repo.isMethod(obj, path[0]) then Null
    else Walk(repo, source, repo.call(obj, path[0], options), path[1..], options)
  }

  /** What `rawFromPath(path, options)` of the `TagResult` of `source` resolves to. */
  function PathValue(repo: Repository, source: Value, path: seq<string>, options: Value): Value
  {
    Walk(repo, source, repo.raw(source), path, options)
  }

  /** `rawFromPath`. */
  method RawFromPath(repo: Repository, source: Value, path: seq<string>, options: Value) returns (obj: Value)
    ensures obj == PathValue(repo, source, path, options)
  {
    obj := repo.raw(source);
    var i := 0;
    while i < |path|
      invariant 0 <= i <= |path|
      invariant Walk(repo, source, obj, path[i..], options) == PathValue(repo, source, path, options)
    {
      var str := path[i];
      if !Truthy(obj) || !repo.holds(source, obj) {
        return Null;
      }
      // Covers both a falsy member and a member that is not a function.
      if !repo.isMethod(obj, str) {
        return Null;
      }
      assert path[i..][1..] == path[i + 1..];
      obj := repo.call(obj, str, options);
      i := i + 1;
    }
  }

  /** A walk along `p + q` is the walk along `q` from where the walk along `p` ended. */
  lemma {:induction false} WalkAppend(repo: Repository, source: Value, obj: Value, p: seq<string>, q: seq<string>, options: Value)
    ensures Walk(repo, source, obj, p + q, options) == Walk(repo, source, Walk(repo, source, obj, p, options), q, options)
    decreases |p|
  {
    if p == [] {
      assert p + q == q;
    } else {
      var pq := p + q;
      assert pq[0] == p[0] && pq[1..] == p[1..] + q;
      if !Truthy(obj) || !repo.holds(source, obj) || !repo.isMethod(obj, p[0]) {
        WalkFromNull(repo, source, q, options);
      } else {
        var next := repo.call(obj, p[0], options);
        assert Walk(repo, source, obj, pq, options) == Walk(repo, source, next, p[1..] + q, options);
        WalkAppend(repo, source, next, p[1..], q, options);
      }
    }
  }

  /** Nothing is reached from null. */
  lemma WalkFromNull(repo: Repository, source: Value, q: seq<string>, options: Value)
    ensures Walk(repo, source, Null, q, options) == Null
  {
  }

  /** A field's value is looked up from its parent structure's value. */
  lemma PathValueOfChild(repo: Repository, source: Value, parent: seq<string>, name: string, options: Value)
    ensures PathValue(repo, source, parent + [name], options) ==
      Walk(repo, source, PathValue(repo, source, parent, options), [name], options)
    ensures IsNullish(PathValue(repo, source, parent, options)) ==> PathValue(repo, source, parent + [name], options) == Null
  {
    WalkAppend(repo, source, repo.raw(source), parent, [name], options);
  }

  /** `_getInventory`: the states, then (actors only) the equips and the current class. */
  function Inventory(b: Battler): (r: seq<Value>)
    ensures |b.states| <= |r| && r[..|b.states|] == b.states
    ensures forall v :: v in r <==> v in b.states || (b.isActor && (v in b.equips || v == b.currentClass))
  {
    b.states + (if b.isActor then b.equips + [b.currentClass] else [])
  }

  /** The data objects consulted, in priority order. */
  function Sources(b: Battler): seq<Value>
  {
    Filter(Truthy, Inventory(b) + [b.data])
  }

  /** Sources come states first, then equips and class for an actor, then the battler's data; falsy ones are skipped. */
  lemma SourcesOrder(b: Battler)
    ensures Sources(b) ==
      Filter(Truthy, b.states)
      + (if b.isActor then Filter(Truthy, b.equips) + Filter(Truthy, [b.currentClass]) else [])
      + Filter(Truthy, [b.data])
    ensures forall i :: 0 <= i < |Sources(b)| ==> Truthy(Sources(b)[i])
  {
    var tail := if b.isActor then b.equips + [b.currentClass] else [];
    FilterMembers(Truthy, Inventory(b) + [b.data]);
    FilterConcat(Truthy, b.states + tail, [b.data]);
    FilterConcat(Truthy, b.states, tail);
    if b.isActor {
      FilterConcat(Truthy, b.equips, [b.currentClass]);
    } else {
      assert Filter(Truthy, tail) == [];
    }
  }

  /** The first non-null value found along `path` in `sources`. */
  function FirstFound(repo: Repository, sources: seq<Value>, path: seq<string>, options: Value): Option<Value>
  {
    if sources == [] then None
    else
      var v := PathValue(repo, sources[0], path, options);
      if !IsNullish(v) then Some(v)
      else FirstFound(repo, sources[1..], path, options)
  }

  /** The value found comes from the first source whose lookup is not null; none is found when every lookup is null. */
  lemma {:induction false} FirstFoundIsFirst(repo: Repository, sources: seq<Value>, path: seq<string>, options: Value)
    ensures var r := FirstFound(repo, sources, path, options);
      r.Some? ==> exists i :: 0 <= i < |sources| && r.value == PathValue(repo, sources[i], path, options)
                              && forall j :: 0 <= j < i ==> IsNullish(PathValue(repo, sources[j], path, options))
    ensures var r := FirstFound(repo, sources, path, options);
      r.Some? ==> !IsNullish(r.value)
    ensures FirstFound(repo, sources, path, options).None? <==>
      forall i :: 0 <= i < |sources| ==> IsNullish(PathValue(repo, sources[i], path, options))
  {
    if sources != [] {
      var v := PathValue(repo, sources[0], path, options);
      if IsNullish(v) {
        var r := FirstFound(repo, sources[1..], path, options);
        FirstFoundIsFirst(repo, sources[1..], path, options);
        if r.Some? {
          var i :| 0 <= i < |sources[1..]| && r.value == PathValue(repo, sources[1..][i], path, options)
            && forall j :: 0 <= j < i ==> IsNullish(PathValue(repo, sources[1..][j], path, options));
          forall j | 0 <= j < i + 1 ensures IsNullish(PathValue(repo, sources[j], path, options)) {
            if j > 0 { assert sources[j] == sources[1..][j - 1]; }
          }
          assert r.value == PathValue(repo, sources[i + 1], path, options);
        } else {
          assert forall i :: 1 <= i < |sources| ==> sources[i] == sources[1..][i - 1];
        }
      }
    }
  }

  /** Every non-null value found along `path` in `sources`, in order. */
  function AllFound(repo: Repository, sources: seq<Value>, path: seq<string>, options: Value): (r: seq<Value>)
    ensures |r| <= |sources|
    ensures forall i :: 0 <= i < |r| ==> !IsNullish(r[i])
  {
    if sources == [] then []
    else
      var v := PathValue(repo, sources[0], path, options);
      (if IsNullish(v) then [] else [v]) + AllFound(repo, sources[1..], path, options)
  }

  /** The main value is the first of all the values, when there is one. */
  lemma {:induction false} FirstOfAll(repo: Repository, sources: seq<Value>, path: seq<string>, options: Value)
    ensures FirstFound(repo, sources, path, options) ==
      if AllFound(repo, sources, path, options) == [] then None else Some(AllFound(repo, sources, path, options)[0])
  {
    if sources != [] {
      FirstOfAll(repo, sources[1..], path, options);
    }
  }

  /** Values found in a concatenation of sources are those of the first part, then those of the second. */
  lemma {:induction false} AllFoundConcat(repo: Repository, a: seq<Value>, b: seq<Value>, path: seq<string>, options: Value)
    ensures AllFound(repo, a + b, path, options) == AllFound(repo, a, path, options) + AllFound(repo, b, path, options)
  {
    if a == [] {
      assert a + b == b;
    } else {
      assert (a + b)[0] == a[0] && (a + b)[1..] == a[1..] + b;
      AllFoundConcat(repo, a[1..], b, path, options);
    }
  }

  /** The values found up to and including position `i`: those before `i`, then that of source `i`, if any. */
  lemma AllFoundUpTo(repo: Repository, sources: seq<Value>, i: nat, path: seq<string>, options: Value)
    requires i < |sources|
    ensures AllFound(repo, sources[..i + 1], path, options) ==
      AllFound(repo, sources[..i], path, options)
      + (if IsNullish(PathValue(repo, sources[i], path, options)) then [] else [PathValue(repo, sources[i], path, options)])
  {
    assert sources[..i + 1] == sources[..i] + [sources[i]];
    AllFoundConcat(repo, sources[..i], [sources[i]], path, options);
  }

  /**
   * `_getDefaultValue`. The object built for a structure on line 630 is
   * overwritten because that case falls through to the number case.
   */
  function DefaultValue(f: Field): (r: Value)
    ensures Truthy(f.default) ==> r == f.default
    ensures !Truthy(f.default) && (f.kind == NumberType || f.kind == StructureType) ==> r == Str("0")
    ensures !Truthy(f.default) && (f.kind == StringType || f.kind == ListType || f.kind == CodeType) ==> r == Str("")
    ensures !Truthy(f.default) && f.kind == MapType ==> r == Dict(map[])
    ensures f.kind == TextType || f.kind.OtherType? ==> r == f.default
  {
    if Truthy(f.default) then f.default
    else
      match f.kind
      case StructureType => Str("0")
      case NumberType => Str("0")
      case StringType => Str("")
      case ListType => Str("")
      case CodeType => Str("")
      case MapType => Dict(map[])
      case _ => f.default
  }

  /** The defaults of a run of entries, later keys overwriting earlier ones. */
  function DefaultsOf(entries: seq<Entry>): (r: map<string, Value>)
    ensures r.Keys == Keys(entries)
  {
    if entries == [] then map[]
    else
      var e := entries[|entries| - 1];
      var init := entries[..|entries| - 1];
      assert entries == init + [e];
      assert Keys(entries) == Keys(init) + {e.key} by {
        assert forall x :: x in entries <==> x in init || x == e;
      }
      DefaultsOf(init)[e.key := DefaultValue(e.field)]
  }

  /**
   * `_makeStructureDefaultValue`: every field's default under its key. On an
   * adapted model the `__$$` marker is one of the entries, and its default is
   * undefined.
   */
  function StructureDefault(fields: Model): (r: Value)
    ensures r.Dict? && r.entries.Keys == Keys(fields.entries) + (if fields.adapted then {Marker} else {})
  {
    Dict(DefaultsOf(fields.entries) + (if fields.adapted then map[Marker := Undefined] else map[]))
  }

  lemma {:induction false} DefaultsOfAt(entries: seq<Entry>, i: nat)
    requires UniqueKeys(entries) && i < |entries|
    ensures DefaultsOf(entries)[entries[i].key] == DefaultValue(entries[i].field)
  {
    var n := |entries| - 1;
    if i < n {
      var init := entries[..n];
      assert init[i] == entries[i];
      assert entries[n].key != entries[i].key;
      DefaultsOfAt(init, i);
    }
  }

  /** Each field of a structure gets its own default. */
  lemma StructureDefaultAt(fields: Model, i: nat)
    requires UniqueKeys(fields.entries) && i < |fields.entries| && fields.entries[i].key != Marker
    ensures StructureDefault(fields).entries[fields.entries[i].key] == DefaultValue(fields.entries[i].field)
  {
    DefaultsOfAt(fields.entries, i);
  }

  /** The value `_getMainValue` resolves to for a battler. */
  function MainValue(repo: Repository, b: Battler, path: seq<string>, f: Field, options: Value): (r: Value)
    ensures r == DefaultValue(f) || exists i :: 0 <= i < |Sources(b)| && r == PathValue(repo, Sources(b)[i], path, options)
    ensures (forall i :: 0 <= i < |Sources(b)| ==> IsNullish(PathValue(repo, Sources(b)[i], path, options))) ==> r == DefaultValue(f)
  {
    FirstFoundIsFirst(repo, Sources(b), path, options);
    match FirstFound(repo, Sources(b), path, options)
    case Some(v) => v
    case None => DefaultValue(f)
  }

  /** The first source whose lookup is not null gives the value found. */
  lemma {:induction false} FirstFoundAt(repo: Repository, sources: seq<Value>, i: nat, path: seq<string>, options: Value)
    requires i < |sources| && !IsNullish(PathValue(repo, sources[i], path, options))
    requires forall j :: 0 <= j < i ==> IsNullish(PathValue(repo, sources[j], path, options))
    ensures FirstFound(repo, sources, path, options) == Some(PathValue(repo, sources[i], path, options))
  {
    if i > 0 {
      var tail := sources[1..];
      forall j | 0 <= j < i - 1 ensures IsNullish(PathValue(repo, tail[j], path, options)) {
        assert tail[j] == sources[j + 1];
      }
      assert tail[i - 1] == sources[i];
      FirstFoundAt(repo, tail, i - 1, path, options);
    }
  }

  /** `_getMainValue` (battler branch). */
  method GetMainValue(repo: Repository, b: Battler, path: seq<string>, f: Field, options: Value) returns (r: Value)
    ensures r == MainValue(repo, b, path, f, options)
  {
    var defaultValue := DefaultValue(f);
    var rpgObjects := Sources(b);
    var i := 0;
    while i < |rpgObjects|
      invariant 0 <= i <= |rpgObjects|
      invariant forall j :: 0 <= j < i ==> IsNullish(PathValue(repo, rpgObjects[j], path, options))
    {
      var value := RawFromPath(repo, rpgObjects[i], path, options);
      if !IsNullish(value) {
        FirstFoundAt(repo, rpgObjects, i, path, options);
        return value;
      }
      i := i + 1;
    }
    FirstFoundIsFirst(repo, rpgObjects, path, options);
    return defaultValue;
  }

  /** `_getAllValues` (battler branch). */
  method GetAllValues(repo: Repository, b: Battler, path: seq<string>, options: Value) returns (values: seq<Value>)
    ensures values == AllFound(repo, Sources(b), path, options)
  {
    values := [];
    var rpgObjects := Sources(b);
    var i := 0;
    while i < |rpgObjects|
      invariant 0 <= i <= |rpgObjects|
      invariant values == AllFound(repo, rpgObjects[..i], path, options)
    {
      var value := RawFromPath(repo, rpgObjects[i], path, options);
      AllFoundUpTo(repo, rpgObjects, i, path, options);
      if !IsNullish(value) {
        values := values + [value];
      }
      i := i + 1;
    }
    assert rpgObjects[..i] == rpgObjects;
  }
}
