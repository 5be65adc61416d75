/**
 * The objects a note's tags live in: the `TagResult` an object caches under a
 * private symbol, its registry of watchers keyed by id, and the watcher
 * handlers that re-read their path on every check and call their callback
 * with the old and new value when the value is no longer strictly equal.
 */
module TagWatchers {
  import opened Wrappers
  import opened Strings
  import opened Seqs
  import opened JsValues
  import opened TagSchema
  import opened GameBattler
  import opened TagLookup
  import opened TagAggregation
  import opened TagNotes
  import opened TagResolution

  /**
   * `value !== oldValue` between two results of `getFromPath`: every proxy the
   * getters build is a fresh object, so it differs from anything.
   */
  predicate Differs(a: Got, b: Got)
  {
    match (a, b)
    case (Resolved(x), Resolved(y)) => !StrictEquals(x, y)
    case _ => true
  }

  /**
   * Differing is symmetric; a primitive other than NaN read twice does not
   * differ, while proxies, arrays, maps and NaN always do.
   */
  lemma DiffersProperties(a: Got, b: Got)
    ensures Differs(a, b) <==> Differs(b, a)
    ensures a == b && a.Resolved? && !(a.value.Arr? || a.value.Dict? || a.value == Num(NaN)) ==> !Differs(a, b)
    ensures a.Proxied? || (a.Resolved? && (a.value.Arr? || a.value.Dict? || a.value == Num(NaN))) ==> Differs(a, b)
  {
    if a.Resolved? && b.Resolved? {
      StrictEqualsProperties(a.value, b.value);
    }
  }

  /** A call of a watcher callback `watcher(tagResult, beforeValue, afterValue)`. */
  datatype Call = Call(watcher: nat, before: Got, after: Got)

  /** `id = '1'` when no id is given. */
  function IdOr(id: Option<string>): string
  {
    match id
    case Some(s) => s
    case None => "1"
  }

  /** `context = {}` when no context is given. */
  function ContextOr(context: Value): Value
  {
    if context == Undefined then Dict(map[]) else context
  }

  /** The watch proxy one segment further down: its path and the contexts given so far. */
  datatype WatchScope = WatchScope(path: seq<string>, contexts: seq<Value>)

  /** Segments without a dot come back from the dotted path a handler stores. */
  lemma WatchPath(segs: seq<string>)
    requires segs != [] && forall i :: 0 <= i < |segs| ==> '.' !in segs[i]
    ensures Split(Join(segs, '.'), '.') == segs
  {
    SplitJoin(segs, '.');
  }

  /** `WatcherHandler`: a callback (named by a number), the dotted path it watches, one context per segment, and the value last seen. */
  class WatcherHandler {
    const watcher: nat
    const path: string
    const contexts: seq<Value>
    var oldValue: Got

    constructor(watcher: nat, path: string, contexts: seq<Value>)
      ensures this.watcher == watcher && this.path == path && this.contexts == contexts
      ensures oldValue == Resolved(Undefined)
    {
      this.watcher := watcher;
      this.path := path;
      this.contexts := contexts;
      oldValue := Resolved(Undefined);
    }

    /** What `getFromPath(path.split('.'), contexts)` resolves to. */
    function Reread(world: Tagged): Result<Got, TagError>
    {
      FromPath(world, Root(world), Split(path, '.'), contexts, 0)
    }

    /**
     * What checking does when the stored value is `before`: a call back with
     * the stored and the re-read value exactly when the re-read succeeds and
     * differs from the stored one.
     */
    function Outcome(world: Tagged, before: Got): Option<Call>
    {
      var v := Reread(world);
      if v.Success? && Differs(v.value, before) then Some(Call(watcher, before, v.value)) else None
    }

    /**
     * `check()`: the callback runs, and the new value is stored, exactly when
     * the re-read value differs from the stored one; a rejected re-read
     * changes nothing.
     */
    method Check(world: Tagged) returns (call: Option<Call>)
      modifies this
      ensures call == Outcome(world, old(oldValue))
      ensures oldValue == if call.Some? then call.value.after else old(oldValue)
    {
      var value := GetFromPath(world, Split(path, '.'), contexts);
      if value.Failure? {
        return None;
      }
      if Differs(value.value, oldValue) {
        call := Some(Call(watcher, oldValue, value.value));
        oldValue := value.value;
      } else {
        call := None;
      }
    }
  }

  /**
   * `TagResult`: the rewritten note its repository interprets, whether it
   * belongs to a battler, the adapted model, the model's patterns and the
   * registered watcher handlers.
   */
  class TagResult {
    const note: string
    const forBattler: bool
    const model: Model
    const patterns: seq<Pattern>
    var watcherHandlers: map<string, WatcherHandler>
    /** The id each registered handler is stored under. */
    ghost var owners: map<WatcherHandler, string>

    /** Every id holds its own handler: the handler's owner is that id. */
    ghost predicate Valid()
      reads this
    {
      forall i :: i in watcherHandlers ==> watcherHandlers[i] in owners && owners[watcherHandlers[i]] == i
    }

    /** No two ids share a handler. */
    lemma DistinctHandlers(i: string, j: string)
      requires Valid() && i in watcherHandlers && j in watcherHandlers && i != j
      ensures watcherHandlers[i] != watcherHandlers[j]
    {
    }

    /** The constructor: the patterns are those of the model as given, then the model is adapted. */
    constructor(note: string, forBattler: bool, model: Model, patterns: seq<Pattern>)
      ensures this.note == note && this.forBattler == forBattler && this.patterns == patterns
      ensures this.model == Adapt(model)
      ensures watcherHandlers == map[] && Valid()
    {
      this.note := note;
      this.forBattler := forBattler;
      this.patterns := patterns;
      var adapted := AdaptModel(model);
      this.model := adapted;
      watcherHandlers := map[];
      owners := map[];
    }

    /** The state the getters read: the note repositories and the battler as they stand now. */
    function World(repo: Repository, battler: Battler): Tagged
    {
      Tagged(repo, battler, patterns)
    }

    /**
     * `registerWatcher`: no callback removes the handler under `id`; a callback
     * puts a new handler there, and every other id keeps its handler.
     */
    method RegisterWatcher(watcher: Option<nat>, path: string, id: string, contexts: seq<Value>)
      requires Valid()
      modifies this
      ensures Valid()
      ensures watcher.None? ==> watcherHandlers == old(watcherHandlers) - {id}
      ensures watcher.Some? ==> id in watcherHandlers && watcherHandlers == old(watcherHandlers)[id := watcherHandlers[id]]
      ensures watcher.Some? ==>
        fresh(watcherHandlers[id]) && watcherHandlers[id].watcher == watcher.value
        && watcherHandlers[id].path == path && watcherHandlers[id].contexts == contexts
        && watcherHandlers[id].oldValue == Resolved(Undefined)
    {
      if watcher.None? {
        watcherHandlers := watcherHandlers - {id};
        return;
      }
      var handler := new WatcherHandler(watcher.value, path, contexts);
      watcherHandlers := watcherHandlers[id := handler];
      owners := owners[handler := id];
    }

    /**
     * The function the watch proxy scoped at `path` returns for `p`, called
     * with a context, a callback and an id: it registers (or removes) the
     * watcher of `path.p` before looking at the field's type, so an unknown
     * type rejects after registering.
     */
    method Watch(path: seq<string>, contexts: seq<Value>, p: string, context: Value, watcher: Option<nat>, id: Option<string>)
      returns (r: Result<Option<WatchScope>, TagError>)
      requires Valid()
      modifies this
      ensures Valid()
      ensures FindPattern(patterns, p, PathString(path)).None? ==>
        r == Failure(MissingPattern(p, PathString(path))) && watcherHandlers == old(watcherHandlers)
      ensures FindPattern(patterns, p, PathString(path)).Some? && watcher.None? ==>
        watcherHandlers == old(watcherHandlers) - {IdOr(id)}
      ensures FindPattern(patterns, p, PathString(path)).Some? && watcher.Some? ==>
        IdOr(id) in watcherHandlers && watcherHandlers == old(watcherHandlers)[IdOr(id) := watcherHandlers[IdOr(id)]]
        && fresh(watcherHandlers[IdOr(id)]) && watcherHandlers[IdOr(id)].watcher == watcher.value
        && watcherHandlers[IdOr(id)].path == Join(path + [p], '.')
        && watcherHandlers[IdOr(id)].contexts == contexts + [ContextOr(context)]
        && watcherHandlers[IdOr(id)].oldValue == Resolved(Undefined)
      ensures FindPattern(patterns, p, PathString(path)).Some? ==>
        match FindPattern(patterns, p, PathString(path)).value.field.kind
        case StructureType => r == Success(Some(WatchScope(path + [p], contexts + [ContextOr(context)])))
        case OtherType(_) => r == Failure(UnhandledType)
        case _ => r == Success(None)
    {
      var pathStr := PathString(path);
      var pattern := FindPattern(patterns, p, pathStr);
      if pattern.None? {
        return Failure(MissingPattern(p, pathStr));
      }
      var ctx := ContextOr(context);
      RegisterWatcher(watcher, Join(path + [p], '.'), IdOr(id), contexts + [ctx]);
      match pattern.value.field.kind {
        case StructureType => r := Success(Some(WatchScope(path + [p], contexts + [ctx])));
        case OtherType(_) => r := Failure(UnhandledType);
        case _ => r := Success(None);
      }
    }

    /**
     * What checking the handler `h` does: from the value `before` it stored
     * to the value `now` it stores, with the call it makes under `id`, if any.
     */
    ghost predicate CheckedAs(h: WatcherHandler, before: Got, now: Got, world: Tagged, calls: map<string, Call>, id: string)
    {
      var call := h.Outcome(world, before);
      (id in calls <==> call.Some?) && (id in calls ==> calls[id] == call.value)
      && now == if call.Some? then call.value.after else before
    }

    /**
     * `checkWatchers`: every handler is checked once against the current
     * state; the handlers run in no particular order, and the calls made are
     * returned by id.
     */
    method CheckWatchers(repo: Repository, battler: Battler) returns (calls: map<string, Call>)
      requires Valid()
      modifies watcherHandlers.Values
      ensures calls.Keys <= watcherHandlers.Keys
      ensures forall id :: id in watcherHandlers ==>
        CheckedAs(watcherHandlers[id], old(watcherHandlers[id].oldValue), watcherHandlers[id].oldValue, World(repo, battler), calls, id)
    {
      var world := World(repo, battler);
      var hs := watcherHandlers;
      ghost var own := owners;
      var todo := hs.Keys;
      calls := map[];
      while todo != {}
        invariant todo <= hs.Keys && calls.Keys <= hs.Keys
        invariant forall id :: id in hs ==> hs[id] in own && own[hs[id]] == id
        invariant forall id :: id in hs ==>
          if id in todo then id !in calls && hs[id].oldValue == old(hs[id].oldValue)
          else CheckedAs(hs[id], old(hs[id].oldValue), hs[id].oldValue, world, calls, id)
        decreases |todo|
      {
        var id :| id in todo;
        var h := hs[id];
        var call := h.Check(world);
        if call.Some? {
          calls := calls[id := call.value];
        }
        todo := todo - {id};
      }
    }
  }

  /**
   * The watcher test oracle: re-reading `my_tag.nbr` for the actor once a
   * state adds `+500` gives 3495 (main 600, `+500`, `+65`, `%200`); a fresh
   * handler on that path therefore calls back with undefined and 3495.
   */
  lemma WatchedNumberOracle(t: Tagged, tag: string, p: string, structure: Pattern, nbr: Pattern, contexts: seq<Value>, target: Value)
    requires FindPattern(t.patterns, tag, PathString([])) == Some(structure) && structure.field.kind == StructureType
    requires Found(t, [tag], OptionsFor(contexts, 0)) == [target] && IsObject(target)
    requires t.repo.holds(t.battler.data, Root(t).target) && t.repo.holds(t.battler.data, target)
    requires FindPattern(t.patterns, p, PathString([tag])) == Some(nbr) && nbr.field.kind == NumberType
    requires Found(t, [tag, p], OptionsFor(contexts, 1)) == [Int(600)]
    requires Found(t, [tag, p + "Plus"], OptionsFor(contexts, 1)) == [Int(500), Int(65)]
    requires Found(t, [tag, p + "Rate"], OptionsFor(contexts, 1)) == [Int(200)]
    ensures FromPath(t, Root(t), [tag, p], contexts, 0) == Success(Resolved(Num(Finite(3495.0))))
    ensures Differs(Resolved(Num(Finite(3495.0))), Resolved(Undefined))
  {
    var o1 := OptionsFor(contexts, 1);
    RootScope(t, tag, structure, contexts, target);
    Pair(tag, p);
    FromPathChain(t, [tag], p, contexts, target, [tag]);
    var plus, rate := p + "Plus", p + "Rate";
    Pair(tag, plus);
    Pair(tag, rate);
    IncreasedNumber(t, [tag], p, o1, nbr);
  }

  lemma RootScope(t: Tagged, tag: string, structure: Pattern, contexts: seq<Value>, target: Value)
    requires FindPattern(t.patterns, tag, PathString([])) == Some(structure) && structure.field.kind == StructureType
    requires Found(t, [tag], OptionsFor(contexts, 0)) == [target] && IsObject(target)
    requires t.repo.holds(t.battler.data, Root(t).target)
    ensures FromPath(t, Root(t), [tag], contexts, 0) == Success(Proxied(target, [tag]))
  {
    var o0 := OptionsFor(contexts, 0);
    assert [] + [tag] == [tag];
    MainIsFirstFound(t, [tag], structure.field, o0);
    SegmentStructure(t, [], tag, o0, structure);
    FromPathFirst(t, tag, contexts);
  }

  lemma IncreasedNumber(t: Tagged, path: seq<string>, p: string, options: Value, nbr: Pattern)
    requires FindPattern(t.patterns, p, PathString(path)) == Some(nbr) && nbr.field.kind == NumberType
    requires Found(t, path + [p], options) == [Int(600)]
    requires Found(t, path + [p + "Plus"], options) == [Int(500), Int(65)]
    requires Found(t, path + [p + "Rate"], options) == [Int(200)]
    ensures Segment(t, path, p, options) == Success(Resolved(Num(Finite(3495.0))))
  {
    MainIsFirstFound(t, path + [p], nbr.field, options);
    NumberSegment(t, path, p, options, nbr);
    IncreasedNumberOracle(Int(600), Found(t, path + [p + "Plus"], options), Found(t, path + [p + "Rate"], options));
  }

  /** An object tags can be read from: the note they come from (a battler's is its actor's or enemy's), and the cached result. */
  class Host {
    const isBattler: bool
    const note: string
    var cached: Option<TagResult>

    constructor(isBattler: bool, note: string)
      ensures this.isBattler == isBattler && this.note == note && cached == None
    {
      this.isBattler := isBattler;
      this.note := note;
      cached := None;
    }
  }

  /**
   * `tags(obj, model)`: the result cached on the object, or a new one built
   * from the object's rewritten note, then cached. `makePatterns` stands for
   * the parser's pattern extraction.
   */
  method Tags(obj: Host, model: Model, makePatterns: Model -> seq<Pattern>) returns (r: TagResult)
    modifies obj
    ensures old(obj.cached).Some? ==> r == old(obj.cached).value && obj.cached == old(obj.cached)
    ensures old(obj.cached).None? ==>
      fresh(r) && obj.cached == Some(r)
      && r.note == NoteToValidUrdText(obj.note) && r.forBattler == obj.isBattler
      && r.model == Adapt(model) && r.patterns == makePatterns(model)
      && r.watcherHandlers == map[] && r.Valid()
  {
    if obj.cached.Some? {
      return obj.cached.value;
    }
    r := MakeTagResult(obj, model, makePatterns);
    obj.cached := Some(r);
  }

  /** `makeTagResult`. */
  method MakeTagResult(obj: Host, model: Model, makePatterns: Model -> seq<Pattern>) returns (r: TagResult)
    ensures fresh(r) && r.note == NoteToValidUrdText(obj.note) && r.forBattler == obj.isBattler
    ensures r.model == Adapt(model) && r.patterns == makePatterns(model)
    ensures r.watcherHandlers == map[] && r.Valid()
  {
    var note := NoteToValidUrdText(obj.note);
    r := new TagResult(note, obj.isBattler, model, makePatterns(model));
  }

  /** Asking twice for an object's tags gives the same result. */
  method TagsTwice(obj: Host, model: Model, makePatterns: Model -> seq<Pattern>) returns (a: TagResult, b: TagResult)
    modifies obj
    ensures a == b
  {
    a := Tags(obj, model, makePatterns);
    b := Tags(obj, model, makePatterns);
  }
}
