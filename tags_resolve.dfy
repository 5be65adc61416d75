/**
 * How the getters of a battler's `TagResult` resolve: each path segment is
 * checked against the model's patterns, then the field's main value and
 * contributions are looked up and combined by the field's type; collecting
 * returns every contributor's value instead; `getFromPath` walks a dotted path
 * of getters the way a watcher re-reads its value.
 */
module TagResolution {
  import opened Wrappers
  import opened Strings
  import opened Seqs
  import opened JsValues
  import opened TagSchema
  import opened GameBattler
  import opened TagLookup
  import opened TagAggregation

  /**
   * A pattern of the model: the field's id, the dotted path of the structure
   * holding it (`__root__` for a top-level field) and its descriptor.
   */
  datatype Pattern = Pattern(id: string, path: string, field: Field)

  /** The `TagResult` of a battler: the note repositories, the battler and the model's patterns. */
  datatype Tagged = Tagged(repo: Repository, battler: Battler, patterns: seq<Pattern>)

  /**
   * What a getter resolves to: a proxy scoped at a structure's path over the
   * structure's value, or a plain value.
   */
  datatype Got = Proxied(target: Value, path: seq<string>) | Resolved(value: Value)

  /**
   * What a collecting getter resolves to: a proxy scoped at a structure's path
   * over the list of its values, the list of values itself, or a member of
   * the proxied value read through (the names an array has, such as `map`).
   */
  datatype Collected = CollectProxied(target: Value, path: seq<string>) | Collected(values: seq<Value>) | MemberOf(target: Value, name: string)

  /** `['__root__', ...path].join('.')`. */
  function PathString(path: seq<string>): string
  {
    Join(["__root__"] + path, '.')
  }

  /** Segments without a dot are recovered from the path string. */
  lemma PathStringSplit(path: seq<string>)
    requires forall i :: 0 <= i < |path| ==> '.' !in path[i]
    ensures Split(PathString(path), '.') == ["__root__"] + path
  {
    var parts := ["__root__"] + path;
    assert forall i :: 0 <= i < |parts| ==> '.' !in parts[i] by {
      forall i | 0 <= i < |parts| ensures '.' !in parts[i] {
        if i > 0 { assert parts[i] == path[i - 1]; }
      }
    }
    SplitJoin(parts, '.');
  }

  predicate Matches(q: Pattern, id: string, pathStr: string)
  {
    q.id == id && q.path == pathStr
  }

  /** `patterns.find(pat => pat.id === id && pat.path === pathStr)`. */
  function FindPattern(patterns: seq<Pattern>, id: string, pathStr: string): (r: Option<Pattern>)
    ensures r.Some? ==> exists i :: 0 <= i < |patterns| && patterns[i] == r.value && Matches(r.value, id, pathStr)
                                  && forall j :: 0 <= j < i ==> !Matches(patterns[j], id, pathStr)
    ensures r.None? <==> forall i :: 0 <= i < |patterns| ==> !Matches(patterns[i], id, pathStr)
  {
    if patterns == [] then None
    else if Matches(patterns[0], id, pathStr) then Some(patterns[0])
    else
      var r := FindPattern(patterns[1..], id, pathStr);
      FindPatternTail(patterns, id, pathStr, r);
      r
  }

  lemma FindPatternTail(patterns: seq<Pattern>, id: string, pathStr: string, r: Option<Pattern>)
    requires patterns != [] && !Matches(patterns[0], id, pathStr)
    requires r.Some? ==> exists i :: 0 <= i < |patterns[1..]| && patterns[1..][i] == r.value && Matches(r.value, id, pathStr)
                                   && forall j :: 0 <= j < i ==> !Matches(patterns[1..][j], id, pathStr)
    requires r.None? <==> forall i :: 0 <= i < |patterns[1..]| ==> !Matches(patterns[1..][i], id, pathStr)
    ensures r.Some? ==> exists i :: 0 <= i < |patterns| && patterns[i] == r.value && Matches(r.value, id, pathStr)
                                  && forall j :: 0 <= j < i ==> !Matches(patterns[j], id, pathStr)
    ensures r.None? <==> forall i :: 0 <= i < |patterns| ==> !Matches(patterns[i], id, pathStr)
  {
    assert forall i :: 1 <= i < |patterns| ==> patterns[i] == patterns[1..][i - 1];
    if r.Some? {
      var i :| 0 <= i < |patterns[1..]| && patterns[1..][i] == r.value && Matches(r.value, id, pathStr)
        && forall j :: 0 <= j < i ==> !Matches(patterns[1..][j], id, pathStr);
      assert patterns[i + 1] == r.value;
    }
  }

  /** The values of every source along `path`, in priority order. */
  function Found(t: Tagged, path: seq<string>, options: Value): seq<Value>
  {
    AllFound(t.repo, Sources(t.battler), path, options)
  }

  /** Only objects can be the target of a proxy. */
  predicate IsObject(v: Value)
  {
    v.Arr? || v.Dict? || v.Obj?
  }

  // ---------------------------------------------------------------------------
  // Getting

  /**
   * The getter `p` of the get proxy scoped at `path`, called with `options`
   * (battler branch of `_getMainValue` / `_getAllValues`).
   */
  function Segment(t: Tagged, path: seq<string>, p: string, options: Value): (r: Result<Got, TagError>)
    ensures r == Failure(MissingPattern(p, PathString(path))) <==> FindPattern(t.patterns, p, PathString(path)).None?
    ensures r.Success? && r.value.Proxied? ==> r.value.path == path + [p]
  {
    var pathStr := PathString(path);
    match FindPattern(t.patterns, p, pathStr)
    case None => Failure(MissingPattern(p, pathStr))
    case Some(pattern) =>
      var main := MainValue(t.repo, t.battler, path + [p], pattern.field, options);
      match pattern.field.kind
      case StructureType =>
        if IsObject(main) then Success(Proxied(main, path + [p])) else Failure(NotAnObject)
      case NumberType =>
        Success(Resolved(Num(NumberResult(ToNumber(main), Found(t, path + [p + "Plus"], options), Found(t, path + [p + "Rate"], options)))))
      case StringType => Success(Resolved(Str(TextResult(main, Found(t, path + [p + "Plus"], options)))))
      case ListType => Success(Resolved(Str(TextResult(main, Found(t, path + [p + "Plus"], options)))))
      case TextType => Success(Resolved(Str(TextResult(main, Found(t, path + [p + "Plus"], options)))))
      case MapType =>
        (match MapResult(Found(t, path + [p], options), Found(t, path + [p + "Plus"], options), Found(t, path + [p + "Rate"], options))
         case Failure(e) => Failure(e)
         case Success(v) => Success(Resolved(v)))
      case CodeType => Success(Resolved(main))
      case OtherType(_) => Failure(UnhandledType)
  }

  /** The main value is the first value found, else the field's default. */
  lemma MainIsFirstFound(t: Tagged, path: seq<string>, f: Field, options: Value)
    ensures Found(t, path, options) != [] ==> MainValue(t.repo, t.battler, path, f, options) == Found(t, path, options)[0]
    ensures Found(t, path, options) == [] ==> MainValue(t.repo, t.battler, path, f, options) == DefaultValue(f)
  {
    FirstOfAll(t.repo, Sources(t.battler), path, options);
  }

  /** A code field resolves to its first value in priority order, else to its default. */
  lemma SegmentCode(t: Tagged, path: seq<string>, p: string, options: Value, q: Pattern)
    requires FindPattern(t.patterns, p, PathString(path)) == Some(q) && q.field.kind == CodeType
    ensures Found(t, path + [p], options) != [] ==> Segment(t, path, p, options) == Success(Resolved(Found(t, path + [p], options)[0]))
    ensures Found(t, path + [p], options) == [] ==> Segment(t, path, p, options) == Success(Resolved(DefaultValue(q.field)))
  {
    MainIsFirstFound(t, path + [p], q.field, options);
  }

  /**
   * A number field whose main value converts to the number `x` is, over
   * numeric contributions, `(x + Σplus) * (1 + Σrate / 100)`, the
   * contributions being the `<p>Plus` and `<p>Rate` values of every source.
   */
  lemma SegmentNumber(t: Tagged, path: seq<string>, p: string, options: Value, q: Pattern, x: real, plus: seq<Value>, rate: seq<Value>)
    requires FindPattern(t.patterns, p, PathString(path)) == Some(q) && q.field.kind == NumberType
    requires ToNumber(MainValue(t.repo, t.battler, path + [p], q.field, options)) == Finite(x)
    requires plus == Found(t, path + [p + "Plus"], options) && rate == Found(t, path + [p + "Rate"], options)
    requires AllFiniteNumbers(plus) && AllFiniteNumbers(rate)
    ensures Segment(t, path, p, options) ==
      Success(Resolved(Num(MulNumbers(Finite(x + RealSum(plus)), Finite(1.0 + RealSum(rate) * 0.01)))))
  {
    NumberSegment(t, path, p, options, q);
    NumberFormula(x, plus, rate);
  }

  lemma NumberSegment(t: Tagged, path: seq<string>, p: string, options: Value, q: Pattern)
    requires FindPattern(t.patterns, p, PathString(path)) == Some(q) && q.field.kind == NumberType
    ensures Segment(t, path, p, options) == Success(Resolved(Num(NumberResult(
      ToNumber(MainValue(t.repo, t.battler, path + [p], q.field, options)), Found(t, path + [p + "Plus"], options), Found(t, path + [p + "Rate"], options)))))
  {
  }

  /** Without `Plus` or `Rate` values anywhere, a number field is its main value as a number. */
  lemma SegmentNumberAlone(t: Tagged, path: seq<string>, p: string, options: Value, q: Pattern)
    requires FindPattern(t.patterns, p, PathString(path)) == Some(q) && q.field.kind == NumberType
    requires Found(t, path + [p + "Plus"], options) == [] && Found(t, path + [p + "Rate"], options) == []
    ensures Segment(t, path, p, options) == Success(Resolved(Num(ToNumber(MainValue(t.repo, t.battler, path + [p], q.field, options)))))
  {
    NumberSegment(t, path, p, options, q);
    NumberWithoutContributions(ToNumber(MainValue(t.repo, t.battler, path + [p], q.field, options)), Found(t, path + [p + "Plus"], options), Found(t, path + [p + "Rate"], options));
  }

  /** A string, list or text field joins its truthy main value(s), then its truthy `Plus` values, with ','. */
  lemma SegmentText(t: Tagged, path: seq<string>, p: string, options: Value, q: Pattern)
    requires FindPattern(t.patterns, p, PathString(path)) == Some(q)
    requires q.field.kind == StringType || q.field.kind == ListType || q.field.kind == TextType
    ensures Segment(t, path, p, options) == Success(Resolved(Str(Join(ElementTexts(
      Filter(Truthy, Spread(MainValue(t.repo, t.battler, path + [p], q.field, options)))
      + Filter(Truthy, Found(t, path + [p + "Plus"], options))), ','))))
  {
    TextPieces(MainValue(t.repo, t.battler, path + [p], q.field, options), Found(t, path + [p + "Plus"], options));
  }

  /**
   * A map field that resolves holds exactly the keys of its found, `Plus` and
   * `Rate` maps, each merged from that key's base, bonus and rate.
   */
  lemma SegmentMap(t: Tagged, path: seq<string>, p: string, options: Value, q: Pattern, key: string)
    requires FindPattern(t.patterns, p, PathString(path)) == Some(q) && q.field.kind == MapType
    requires Segment(t, path, p, options).Success?
    ensures Segment(t, path, p, options).value.Resolved? && Segment(t, path, p, options).value.value.Dict?
    ensures key in Segment(t, path, p, options).value.value.entries <==>
      key in KeysOf(Found(t, path + [p], options)) + KeysOf(Found(t, path + [p + "Plus"], options)) + KeysOf(Found(t, path + [p + "Rate"], options))
  {
    var all, plus, rate := Found(t, path + [p], options), Found(t, path + [p + "Plus"], options), Found(t, path + [p + "Rate"], options);
    assert MapResult(all, plus, rate).Success?;
    MapResultAt(all, plus, rate, key);
  }

  /**
   * A structure field scopes the next getters under its path when its main
   * value is an object; a proxy over anything else cannot be built.
   */
  lemma SegmentStructure(t: Tagged, path: seq<string>, p: string, options: Value, q: Pattern)
    requires FindPattern(t.patterns, p, PathString(path)) == Some(q) && q.field.kind == StructureType
    ensures IsObject(MainValue(t.repo, t.battler, path + [p], q.field, options)) ==>
      Segment(t, path, p, options) == Success(Proxied(MainValue(t.repo, t.battler, path + [p], q.field, options), path + [p]))
    ensures !IsObject(MainValue(t.repo, t.battler, path + [p], q.field, options)) ==> Segment(t, path, p, options) == Failure(NotAnObject)
  {
  }

  /** A structure found nowhere and without a truthy default falls back to '0', over which no proxy can be built. */
  lemma SegmentStructureMissing(t: Tagged, path: seq<string>, p: string, options: Value, q: Pattern)
    requires FindPattern(t.patterns, p, PathString(path)) == Some(q) && q.field.kind == StructureType
    requires Found(t, path + [p], options) == [] && !Truthy(q.field.default)
    ensures Segment(t, path, p, options) == Failure(NotAnObject)
  {
    MainIsFirstFound(t, path + [p], q.field, options);
  }

  /** A field of a type the engine does not know rejects with 'Unhandled type'. */
  lemma SegmentUnhandled(t: Tagged, path: seq<string>, p: string, options: Value, q: Pattern)
    requires FindPattern(t.patterns, p, PathString(path)) == Some(q) && q.field.kind.OtherType?
    ensures Segment(t, path, p, options) == Failure(UnhandledType)
  {
  }

  /**
   * The number test oracle at the getter: main 600, `+65` and `%200` give 1995;
   * with a higher-priority state holding 10 the main value is 10 and the
   * result 225.
   */
  lemma NumberGetterOracle(t: Tagged, path: seq<string>, p: string, options: Value, q: Pattern)
    requires FindPattern(t.patterns, p, PathString(path)) == Some(q) && q.field.kind == NumberType
    requires Found(t, path + [p + "Plus"], options) == [Int(65)] && Found(t, path + [p + "Rate"], options) == [Int(200)]
    ensures Found(t, path + [p], options) == [Int(600)] ==> Segment(t, path, p, options) == Success(Resolved(Num(Finite(1995.0))))
    ensures Found(t, path + [p], options) == [Int(10), Int(600)] ==> Segment(t, path, p, options) == Success(Resolved(Num(Finite(225.0))))
  {
    var main := MainValue(t.repo, t.battler, path + [p], q.field, options);
    MainIsFirstFound(t, path + [p], q.field, options);
    NumberSegment(t, path, p, options, q);
    if Found(t, path + [p], options) == [Int(600)] {
      NumberOracle(main, Found(t, path + [p + "Plus"], options), Found(t, path + [p + "Rate"], options));
    }
    if Found(t, path + [p], options) == [Int(10), Int(600)] {
      OvershadowedNumberOracle(main, Found(t, path + [p + "Plus"], options), Found(t, path + [p + "Rate"], options));
    }
  }

  /** The getter as the source runs it: awaiting `_getMainValue`, `_getAllValues` and the map merge in turn. */
  method ResolveSegment(t: Tagged, path: seq<string>, p: string, options: Value) returns (r: Result<Got, TagError>)
    ensures r == Segment(t, path, p, options)
  {
    var pathStr := PathString(path);
    var pattern := FindPattern(t.patterns, p, pathStr);
    if pattern.None? {
      return Failure(MissingPattern(p, pathStr));
    }
    var field := pattern.value.field;
    var mainValue := GetMainValue(t.repo, t.battler, path + [p], field, options);
    match field.kind {
      case StructureType =>
        if IsObject(mainValue) {
          r := Success(Proxied(mainValue, path + [p]));
        } else {
          r := Failure(NotAnObject);
        }
      case NumberType =>
        var plusValues := GetAllValues(t.repo, t.battler, path + [p + "Plus"], options);
        var rateValues := GetAllValues(t.repo, t.battler, path + [p + "Rate"], options);
        r := Success(Resolved(Num(NumberResult(ToNumber(mainValue), plusValues, rateValues))));
      case StringType =>
        var plusValues := GetAllValues(t.repo, t.battler, path + [p + "Plus"], options);
        r := Success(Resolved(Str(TextResult(mainValue, plusValues))));
      case ListType =>
        var plusValues := GetAllValues(t.repo, t.battler, path + [p + "Plus"], options);
        r := Success(Resolved(Str(TextResult(mainValue, plusValues))));
      case TextType =>
        var plusValues := GetAllValues(t.repo, t.battler, path + [p + "Plus"], options);
        r := Success(Resolved(Str(TextResult(mainValue, plusValues))));
      case MapType =>
        r := ResolveMap(t, path, p, options, pattern.value);
      case CodeType =>
        r := Success(Resolved(mainValue));
      case OtherType(_) =>
        r := Failure(UnhandledType);
    }
  }

  /** The map case of the getter: the found, `Plus` and `Rate` maps, merged. */
  method ResolveMap(t: Tagged, path: seq<string>, p: string, options: Value, q: Pattern) returns (r: Result<Got, TagError>)
    requires FindPattern(t.patterns, p, PathString(path)) == Some(q) && q.field.kind == MapType
    ensures r == Segment(t, path, p, options)
  {
    var allMaps := GetAllValues(t.repo, t.battler, path + [p], options);
    var plusMaps := GetAllValues(t.repo, t.battler, path + [p + "Plus"], options);
    var rateMaps := GetAllValues(t.repo, t.battler, path + [p + "Rate"], options);
    MapSegment(t, path, p, options, q);
    var obj := MapValue(allMaps, plusMaps, rateMaps);
    if obj.Failure? {
      r := Failure(obj.error);
    } else {
      r := Success(Resolved(obj.value));
    }
  }

  lemma MapSegment(t: Tagged, path: seq<string>, p: string, options: Value, q: Pattern)
    requires FindPattern(t.patterns, p, PathString(path)) == Some(q) && q.field.kind == MapType
    ensures Segment(t, path, p, options) ==
      match MapResult(Found(t, path + [p], options), Found(t, path + [p + "Plus"], options), Found(t, path + [p + "Rate"], options))
      case Failure(e) => Failure(e)
      case Success(v) => Success(Resolved(v))
  {
  }

  // ---------------------------------------------------------------------------
  // Collecting

  /**
   * The getter `p` of the collect proxy over `target` scoped at `path`:
   * names an array has are read through, every other name must be a field
   * of the model, and resolves to all the values found for it.
   */
  function CollectSegment(t: Tagged, target: Value, path: seq<string>, p: string, options: Value, arrayMembers: set<string>): (r: Result<Collected, TagError>)
    ensures p in arrayMembers ==> r == Success(MemberOf(target, p))
    ensures p !in arrayMembers ==>
      (r == Failure(MissingPattern(p, PathString(path))) <==> FindPattern(t.patterns, p, PathString(path)).None?)
    ensures p !in arrayMembers && r.Success? ==>
      r.value == Collected(Found(t, path + [p], options)) || r.value == CollectProxied(Arr(Found(t, path + [p], options)), path + [p])
  {
    if p in arrayMembers then Success(MemberOf(target, p))
    else
      var pathStr := PathString(path);
      match FindPattern(t.patterns, p, pathStr)
      case None => Failure(MissingPattern(p, pathStr))
      case Some(pattern) =>
        var values := Found(t, path + [p], options);
        match pattern.field.kind
        case StructureType => Success(CollectProxied(Arr(values), path + [p]))
        case OtherType(_) => Failure(UnhandledType)
        case _ => Success(Collected(values))
  }

  /** Collecting a code field lists the values whose first one is what getting the field gives. */
  lemma CollectHeadIsGet(t: Tagged, target: Value, path: seq<string>, p: string, options: Value, arrayMembers: set<string>, q: Pattern)
    requires p !in arrayMembers
    requires FindPattern(t.patterns, p, PathString(path)) == Some(q) && q.field.kind == CodeType
    requires Found(t, path + [p], options) != []
    ensures CollectSegment(t, target, path, p, options, arrayMembers).Success?
    ensures CollectSegment(t, target, path, p, options, arrayMembers).value.Collected?
    ensures Segment(t, path, p, options) == Success(Resolved(CollectSegment(t, target, path, p, options, arrayMembers).value.values[0]))
  {
    SegmentCode(t, path, p, options, q);
  }

  /** Collecting the values of two sources, in priority order. */
  lemma FoundOfTwo(t: Tagged, path: seq<string>, options: Value, s: Value, d: Value, x: Value, y: Value)
    requires Sources(t.battler) == [s, d]
    requires PathValue(t.repo, s, path, options) == x && PathValue(t.repo, d, path, options) == y
    requires !IsNullish(x) && !IsNullish(y)
    ensures Found(t, path, options) == [x, y]
  {
    var sources := Sources(t.battler);
    assert sources[1..] == [d] && sources[1..][1..] == [];
    assert AllFound(t.repo, [d], path, options) == [y] + AllFound(t.repo, [], path, options);
    assert AllFound(t.repo, sources, path, options) == [x] + AllFound(t.repo, [d], path, options);
  }

  /** The collect test oracle: a state holding 10 ahead of the actor's 600 gives `[10, 600]`. */
  lemma CollectOracle(t: Tagged, target: Value, path: seq<string>, p: string, options: Value, arrayMembers: set<string>, q: Pattern, s: Value, d: Value)
    requires p !in arrayMembers
    requires FindPattern(t.patterns, p, PathString(path)) == Some(q) && q.field.kind == NumberType
    requires Sources(t.battler) == [s, d]
    requires PathValue(t.repo, s, path + [p], options) == Int(10) && PathValue(t.repo, d, path + [p], options) == Int(600)
    ensures CollectSegment(t, target, path, p, options, arrayMembers) == Success(Collected([Int(10), Int(600)]))
  {
    FoundOfTwo(t, path + [p], options, s, d, Int(10), Int(600));
  }

  /** The collecting getter as the source runs it, awaiting `_getAllValues`. */
  method CollectField(t: Tagged, target: Value, path: seq<string>, p: string, options: Value, arrayMembers: set<string>) returns (r: Result<Collected, TagError>)
    ensures r == CollectSegment(t, target, path, p, options, arrayMembers)
  {
    if p in arrayMembers {
      return Success(MemberOf(target, p));
    }
    var pathStr := PathString(path);
    var pattern := FindPattern(t.patterns, p, pathStr);
    if pattern.None? {
      return Failure(MissingPattern(p, pathStr));
    }
    var values := GetAllValues(t.repo, t.battler, path + [p], options);
    CollectFound(t, target, path, p, options, arrayMembers, pattern.value);
    match pattern.value.field.kind {
      case StructureType => r := Success(CollectProxied(Arr(values), path + [p]));
      case OtherType(_) => r := Failure(UnhandledType);
      case _ => r := Success(Collected(values));
    }
  }

  lemma CollectFound(t: Tagged, target: Value, path: seq<string>, p: string, options: Value, arrayMembers: set<string>, q: Pattern)
    requires p !in arrayMembers && FindPattern(t.patterns, p, PathString(path)) == Some(q)
    ensures CollectSegment(t, target, path, p, options, arrayMembers) ==
      match q.field.kind
      case StructureType => Success(CollectProxied(Arr(Found(t, path + [p], options)), path + [p]))
      case OtherType(_) => Failure(UnhandledType)
      case _ => Success(Collected(Found(t, path + [p], options)))
  {
  }

  // ---------------------------------------------------------------------------
  // getFromPath

  /** `{ context: optionArray[i] || {} }`. */
  function OptionsFor(optionArray: seq<Value>, i: nat): Value
  {
    Dict(map["context" := Or(if i < |optionArray| then optionArray[i] else Undefined, Dict(map[]))])
  }

  /** `this.get()`: the get proxy over the battler's own interpreted note. */
  function Root(t: Tagged): Got
  {
    Proxied(t.repo.raw(t.battler.data), [])
  }

  /**
   * The value `getFromPath` reaches from `value` through the segments from
   * `i` on: null as soon as the value is falsy, unknown to the repository or
   * without a getter of that name; a getter that rejects rejects the whole walk.
   */
  function FromPath(t: Tagged, value: Got, segs: seq<string>, optionArray: seq<Value>, i: nat): Result<Got, TagError>
    decreases |segs| - i
  {
    if i >= |segs| then Success(value)
    else
      var options := OptionsFor(optionArray, i);
      match value
      case Proxied(target, path) =>
        if !t.repo.holds(t.battler.data, target) then Success(Resolved(Null))
        else
          (match Segment(t, path, segs[i], options)
           case Failure(e) => Failure(e)
           case Success(next) => FromPath(t, next, segs, optionArray, i + 1))
      case Resolved(v) =>
        if !Truthy(v) || !t.repo.holds(t.battler.data, v) || !t.repo.isMethod(v, segs[i]) then Success(Resolved(Null))
        else FromPath(t, Resolved(t.repo.call(v, segs[i], options)), segs, optionArray, i + 1)
  }

  /** `getFromPath(path, optionArray)`. */
  method GetFromPath(t: Tagged, segs: seq<string>, optionArray: seq<Value>) returns (r: Result<Got, TagError>)
    ensures r == FromPath(t, Root(t), segs, optionArray, 0)
  {
    var value := Root(t);
    for i := 0 to |segs|
      invariant FromPath(t, value, segs, optionArray, i) == FromPath(t, Root(t), segs, optionArray, 0)
    {
      var str := segs[i];
      var options := OptionsFor(optionArray, i);
      match value {
        case Proxied(target, path) =>
          if !t.repo.holds(t.battler.data, target) {
            return Success(Resolved(Null));
          }
          var next := ResolveSegment(t, path, str, options);
          if next.Failure? {
            return Failure(next.error);
          }
          value := next.value;
        case Resolved(v) =>
          if !Truthy(v) || !t.repo.holds(t.battler.data, v) {
            return Success(Resolved(Null));
          }
          if !t.repo.isMethod(v, str) {
            return Success(Resolved(Null));
          }
          value := Resolved(t.repo.call(v, str, options));
      }
    }
    return Success(value);
  }

  /** Walking one more segment continues from where the shorter walk stopped (a null stays null). */
  lemma {:induction false} FromPathSnoc(t: Tagged, value: Got, segs: seq<string>, p: string, optionArray: seq<Value>, i: nat)
    requires i <= |segs|
    ensures FromPath(t, value, segs + [p], optionArray, i) ==
      match FromPath(t, value, segs, optionArray, i)
      case Failure(e) => Failure(e)
      case Success(w) => FromPath(t, w, segs + [p], optionArray, |segs|)
    decreases |segs| - i
  {
    if i < |segs| {
      assert (segs + [p])[i] == segs[i];
      var options := OptionsFor(optionArray, i);
      match value
      case Proxied(target, path) =>
        if t.repo.holds(t.battler.data, target) {
          match Segment(t, path, segs[i], options)
          case Failure(e) =>
          case Success(next) => FromPathSnoc(t, next, segs, p, optionArray, i + 1);
        }
      case Resolved(v) =>
        if Truthy(v) && t.repo.holds(t.battler.data, v) && t.repo.isMethod(v, segs[i]) {
          FromPathSnoc(t, Resolved(t.repo.call(v, segs[i], options)), segs, p, optionArray, i + 1);
        }
    }
  }

  /** A walk that ends on a proxy ends on the proxy scoped at the whole path walked. */
  lemma {:induction false} FromPathScope(t: Tagged, value: Got, segs: seq<string>, optionArray: seq<Value>, i: nat)
    requires i <= |segs|
    requires value.Proxied? ==> value.path == segs[..i]
    ensures FromPath(t, value, segs, optionArray, i).Success? && FromPath(t, value, segs, optionArray, i).value.Proxied? ==>
      FromPath(t, value, segs, optionArray, i).value.path == segs
    decreases |segs| - i
  {
    if i == |segs| {
      assert segs[..i] == segs;
    } else {
      var options := OptionsFor(optionArray, i);
      assert segs[..i + 1] == segs[..i] + [segs[i]];
      match value
      case Proxied(target, path) =>
        if t.repo.holds(t.battler.data, target) {
          match Segment(t, path, segs[i], options)
          case Failure(e) =>
          case Success(next) => FromPathScope(t, next, segs, optionArray, i + 1);
        }
      case Resolved(v) =>
        if Truthy(v) && t.repo.holds(t.battler.data, v) && t.repo.isMethod(v, segs[i]) {
          FromPathScope(t, Resolved(t.repo.call(v, segs[i], options)), segs, optionArray, i + 1);
        }
    }
  }

  /**
   * Once a walk reaches a structure the repository knows, one more segment is
   * exactly that structure's getter, called with the options of its position.
   */
  lemma FromPathChain(t: Tagged, segs: seq<string>, p: string, optionArray: seq<Value>, target: Value, path: seq<string>)
    requires FromPath(t, Root(t), segs, optionArray, 0) == Success(Proxied(target, path))
    requires t.repo.holds(t.battler.data, target)
    ensures FromPath(t, Root(t), segs + [p], optionArray, 0) == Segment(t, segs, p, OptionsFor(optionArray, |segs|))
  {
    assert segs[..0] == [];
    FromPathScope(t, Root(t), segs, optionArray, 0);
    FromPathSnoc(t, Root(t), segs, p, optionArray, 0);
    assert (segs + [p])[|segs|] == p;
  }

  /** The first segment of a walk is the getter of the root proxy. */
  lemma FromPathFirst(t: Tagged, p: string, optionArray: seq<Value>)
    requires t.repo.holds(t.battler.data, Root(t).target)
    ensures FromPath(t, Root(t), [p], optionArray, 0) == Segment(t, [], p, OptionsFor(optionArray, 0))
  {
    assert FromPath(t, Root(t), [], optionArray, 0) == Success(Proxied(Root(t).target, []));
    FromPathChain(t, [], p, optionArray, Root(t).target, []);
    assert [] + [p] == [p];
  }
}
