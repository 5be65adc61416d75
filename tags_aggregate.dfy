/**
 * How `_makeGetProxy` combines the values found for a field: a number is its
 * main value plus every `Plus` contribution, scaled by one plus a hundredth of
 * every `Rate` contribution; a string, list or text is the comma-joined list of
 * the main value and the `Plus` contributions; a map merges, key by key, the
 * first truthy value across sources with the summed `Plus` and `Rate` maps.
 */
module TagAggregation {
  import opened Wrappers
  import opened Strings
  import opened Seqs
  import opened JsValues

  /** The errors a getter can reject with. */
  datatype TagError =
    | MissingPattern(id: string, path: string)  // "Can't find <id> in the model. Path is <path>"
    | UnhandledType                              // "Unhandled type"
    | NoSplit                                    // TypeError: `split` called on a value that is not a string
    | NotAnObject                                // TypeError: a proxy over a value that is not an object

  // ---------------------------------------------------------------------------
  // Numbers

  /** `values.reduce((acc, curr) => (acc += curr), init)`. */
  function SumValues(init: Value, vs: seq<Value>): Value
    decreases |vs|
  {
    if vs == [] then init else SumValues(JsAdd(init, vs[0]), vs[1..])
  }

  predicate AllFiniteNumbers(vs: seq<Value>)
  {
    forall i :: 0 <= i < |vs| ==> vs[i].Num? && vs[i].n.Finite?
  }

  /** The arithmetic sum of a run of finite numbers. */
  function RealSum(vs: seq<Value>): real
    requires AllFiniteNumbers(vs)
  {
    if vs == [] then 0.0 else vs[0].n.r + RealSum(vs[1..])
  }

  /** The text each value contributes to a string concatenation. */
  function Texts(vs: seq<Value>): (r: seq<string>)
    ensures |r| == |vs|
  {
    if vs == [] then [] else [ToText(vs[0])] + Texts(vs[1..])
  }

  /** Over numbers, the reduce adds them up. */
  lemma {:induction false} SumOfNumbers(init: real, vs: seq<Value>)
    requires AllFiniteNumbers(vs)
    ensures SumValues(Num(Finite(init)), vs) == Num(Finite(init + RealSum(vs)))
    decreases |vs|
  {
    if vs != [] {
      assert AllFiniteNumbers(vs[1..]) by {
        forall i | 0 <= i < |vs| - 1 ensures vs[1..][i].Num? && vs[1..][i].n.Finite? {
          assert vs[1..][i] == vs[i + 1];
        }
      }
      SumOfNumbers(init + vs[0].n.r, vs[1..]);
    }
  }

  /** Once the accumulator is a string, the reduce concatenates the texts of the rest. */
  lemma {:induction false} SumOfText(s: string, vs: seq<Value>)
    ensures SumValues(Str(s), vs) == Str(s + Concat(Texts(vs)))
    decreases |vs|
  {
    if vs == [] {
      assert s + Concat(Texts(vs)) == s;
    } else {
      SumOfText(s + ToText(vs[0]), vs[1..]);
      assert s + ToText(vs[0]) + Concat(Texts(vs[1..])) == s + Concat(Texts(vs));
    }
  }

  /**
   * The number a number field resolves to, `(numberValue + plusSum) * (1 +
   * rateSum)`, for the number `Number(main)` of its main value.
   */
  function NumberResult(numberValue: JsNumber, plus: seq<Value>, rate: seq<Value>): JsNumber
  {
    var plusSum := SumValues(Num(Finite(0.0)), plus);
    var rateSum := MulNumbers(ToNumber(SumValues(Num(Finite(0.0)), rate)), Finite(0.01));
    MulNumbers(ToNumber(JsAdd(Num(numberValue), plusSum)), AddNumbers(Finite(1.0), rateSum))
  }

  /** Over numeric contributions, the result is `(main + Σplus) * (1 + Σrate / 100)`. */
  lemma NumberFormula(x: real, plus: seq<Value>, rate: seq<Value>)
    requires AllFiniteNumbers(plus) && AllFiniteNumbers(rate)
    ensures NumberResult(Finite(x), plus, rate) == MulNumbers(Finite(x + RealSum(plus)), Finite(1.0 + RealSum(rate) * 0.01))
  {
    PlusPart(x, plus);
    RatePart(rate);
  }

  lemma PlusPart(x: real, plus: seq<Value>)
    requires AllFiniteNumbers(plus)
    ensures ToNumber(JsAdd(Num(Finite(x)), SumValues(Num(Finite(0.0)), plus))) == Finite(x + RealSum(plus))
  {
    var p := RealSum(plus);
    SumOfNumbers(0.0, plus);
    AddNumbersValue(Finite(x), Finite(0.0 + p));
  }

  lemma RatePart(rate: seq<Value>)
    requires AllFiniteNumbers(rate)
    ensures AddNumbers(Finite(1.0), MulNumbers(ToNumber(SumValues(Num(Finite(0.0)), rate)), Finite(0.01))) == Finite(1.0 + RealSum(rate) * 0.01)
  {
    var q := RealSum(rate);
    SumOfNumbers(0.0, rate);
    assert ToNumber(Num(Finite(0.0 + q))) == Finite(q);
    MulNumbersValue(Finite(q), Finite(0.01));
    AddNumbersValue(Finite(1.0), Finite(q * 0.01));
  }

  /** Without contributions a number field is its main value, converted by `Number`. */
  lemma NumberWithoutContributions(n: JsNumber, plus: seq<Value>, rate: seq<Value>)
    requires plus == [] && rate == []
    ensures NumberResult(n, plus, rate) == n
  {
  }

  /** A main value that `Number` turns into NaN makes the whole result NaN. */
  lemma NumberOfNaN(plus: seq<Value>, rate: seq<Value>)
    ensures NumberResult(NaN, plus, rate) == NaN
  {

    var plusSum := SumValues(Num(Finite(0.0)), plus);
    if plusSum.Str? {
      assert JsAdd(Num(NaN), plusSum) == Str("NaN" + plusSum.s);
      WordIsNaN("NaN" + plusSum.s);
    } else if plusSum.Num? {
      assert JsAdd(Num(NaN), plusSum) == Num(NaN);
    } else {
      SumIsPrimitive(Num(Finite(0.0)), plus);
    }
    assert ToNumber(JsAdd(Num(NaN), plusSum)) == NaN;
  }

  /** The reduce yields a number or a string when it starts from one. */
  lemma {:induction false} SumIsPrimitive(init: Value, vs: seq<Value>)
    requires init.Num? || init.Str?
    ensures SumValues(init, vs).Num? || SumValues(init, vs).Str?
    decreases |vs|
  {
    if vs != [] {
      SumIsPrimitive(JsAdd(init, vs[0]), vs[1..]);
    }
  }

  lemma OneNumber(vs: seq<Value>, x: int)
    requires vs == [Int(x)]
    ensures AllFiniteNumbers(vs) && RealSum(vs) == x as real
  {
    assert vs[1..] == [];
  }

  /** The number test oracle: main 600 (500 + context.a), `+65` and `%200` give 1995. */
  lemma NumberOracle(main: Value, plus: seq<Value>, rate: seq<Value>)
    requires main == Int(600) && plus == [Int(65)] && rate == [Int(200)]
    ensures NumberResult(ToNumber(main), plus, rate) == Finite(1995.0)
  {
    OneNumber(plus, 65);
    OneNumber(rate, 200);
    NumberFormula(600.0, plus, rate);
    MulNumbersValue(Finite(665.0), Finite(3.0));
  }

  /** The overshadowed-base test oracle: a higher-priority main value 10 gives 225. */
  lemma OvershadowedNumberOracle(main: Value, plus: seq<Value>, rate: seq<Value>)
    requires main == Int(10) && plus == [Int(65)] && rate == [Int(200)]
    ensures NumberResult(ToNumber(main), plus, rate) == Finite(225.0)
  {
    OneNumber(plus, 65);
    OneNumber(rate, 200);
    NumberFormula(10.0, plus, rate);
    MulNumbersValue(Finite(75.0), Finite(3.0));
  }

  /** The watcher test oracle: a further `+500` state gives 3495. */
  lemma IncreasedNumberOracle(main: Value, plus: seq<Value>, rate: seq<Value>)
    requires main == Int(600) && plus == [Int(500), Int(65)] && rate == [Int(200)]
    ensures NumberResult(ToNumber(main), plus, rate) == Finite(3495.0)
  {
    OneNumber(plus[1..], 65);
    OneNumber(rate, 200);
    NumberFormula(600.0, plus, rate);
    MulNumbersValue(Finite(1165.0), Finite(3.0));
  }

  // ---------------------------------------------------------------------------
  // Strings, lists and texts

  /** The elements `[].concat(v)` contributes: an array's elements, or the value itself. */
  function Spread(v: Value): (r: seq<Value>)
    ensures v.Arr? ==> r == v.items
    ensures !v.Arr? ==> r == [v]
  {
    if v.Arr? then v.items else [v]
  }

  /** `[].concat(main, plus).filter(v => !!v).join(',')`. */
  function TextResult(main: Value, plus: seq<Value>): (r: string)
    ensures (forall i :: 0 <= i < |Spread(main) + plus| ==> !Truthy((Spread(main) + plus)[i])) ==> r == ""
  {
    var all := Spread(main) + plus;
    FilterMembers(Truthy, all);
    assert (forall i :: 0 <= i < |all| ==> !Truthy(all[i])) ==> forall v :: v in all ==> !Truthy(v);
    Join(ElementTexts(Filter(Truthy, all)), ',')
  }

  /** A falsy main value contributes nothing. */
  lemma TextWithoutMain(main: Value, plus: seq<Value>)
    requires !Truthy(main)
    ensures TextResult(main, plus) == Join(ElementTexts(Filter(Truthy, plus)), ',')
  {
    assert Spread(main) == [main];
    FilterConcat(Truthy, [main], plus);
    assert [main][1..] == [];
    assert Filter(Truthy, [main]) == [];
    assert Filter(Truthy, Spread(main) + plus) == Filter(Truthy, plus);
  }

  /** The pieces are the truthy main value(s), then the truthy contributions, in order. */
  lemma TextPieces(main: Value, plus: seq<Value>)
    ensures TextResult(main, plus) ==
      Join(ElementTexts(Filter(Truthy, Spread(main)) + Filter(Truthy, plus)), ',')
  {
    FilterConcat(Truthy, Spread(main), plus);
  }

  /** When no piece holds a comma, splitting the result on ',' gives back the pieces. */
  lemma TextSplits(main: Value, plus: seq<Value>)
    requires Filter(Truthy, Spread(main) + plus) != []
    requires forall i :: 0 <= i < |ElementTexts(Filter(Truthy, Spread(main) + plus))| ==>
      ',' !in ElementTexts(Filter(Truthy, Spread(main) + plus))[i]
    ensures Split(TextResult(main, plus), ',') == ElementTexts(Filter(Truthy, Spread(main) + plus))
  {
    SplitJoin(ElementTexts(Filter(Truthy, Spread(main) + plus)), ',');
  }

  /** Non-empty strings survive the filter and come back from the join's element texts. */
  lemma {:induction false} PlainTexts(ss: seq<string>)
    requires forall i :: 0 <= i < |ss| ==> ss[i] != ""
    ensures Filter(Truthy, StrValues(ss)) == StrValues(ss)
    ensures ElementTexts(StrValues(ss)) == ss
  {
    FilterAll(Truthy, StrValues(ss));
    if ss != [] {
      PlainTexts(ss[1..]);
      assert StrValues(ss)[1..] == StrValues(ss[1..]);
    }
  }

  /** When every piece is a non-empty string, the text is their comma-joined list. */
  lemma PlainTextResult(main: Value, plus: seq<Value>, texts: seq<string>)
    requires Spread(main) + plus == StrValues(texts)
    requires forall i :: 0 <= i < |texts| ==> texts[i] != ""
    ensures TextResult(main, plus) == Join(texts, ',')
  {
    PlainTexts(texts);
  }

  /** The string test oracle: main "hello" and two "world" contributions give "hello,world,world". */
  lemma TextOracle(main: Value, plus: seq<Value>)
    requires main == Str("hello") && plus == [Str("world"), Str("world")]
    ensures TextResult(main, plus) == "hello,world,world"
  {
    var texts := ["hello", "world", "world"];
    assert Spread(main) + plus == StrValues(texts);
    PlainTextResult(main, plus, texts);
    JoinOfThree(texts, ',');
    HelloWorld();
  }

  lemma HelloWorld()
    ensures "hello" + [','] + "world" + [','] + "world" == "hello,world,world"
  {
  }

  lemma JoinOfThree(parts: seq<string>, sep: char)
    requires |parts| == 3
    ensures Join(parts, sep) == parts[0] + [sep] + parts[1] + [sep] + parts[2]
  {
    var rest := parts[1..];
    assert rest[1..] == [parts[2]];
    assert Join(rest, sep) == parts[1] + [sep] + parts[2];
    assert Join(parts, sep) == parts[0] + [sep] + Join(rest, sep);
  }

  /** The list test oracle: with the empty default as main value, the contribution "10" is the whole text. */
  lemma DefaultTextOracle(main: Value, plus: seq<Value>)
    requires main == Str("") && plus == [Str("10")]
    ensures TextResult(main, plus) == "10"
  {
    FilterAll(Truthy, plus);
    TextWithoutMain(main, plus);
    assert plus[1..] == [];
  }

  // ---------------------------------------------------------------------------
  // Maps

  /**
   * `Object.entries(v)` for a found map value: a plain object's own entries,
   * a string's characters and an array's elements under their decimal
   * indices; numbers and booleans have none. The own keys of any other
   * object are not part of the model, so it contributes none.
   */
  function EntriesOf(v: Value): map<string, Value>
  {
    match v
    case Dict(entries) => entries
    case Str(s) => IndexEntries(seq(|s|, i requires 0 <= i < |s| => Str([s[i]])))
    case Arr(items) => IndexEntries(items)
    case _ => map[]
  }

  /** The elements of a sequence under their decimal indices. */
  function IndexEntries(items: seq<Value>): (m: map<string, Value>)
  {
    DecimalInjective();
    map i | 0 <= i < |items| :: NatToDecimal(i) := items[i]
  }

  /** Different indices have different decimal texts. */
  lemma DecimalInjective()
    ensures forall i: nat, j: nat :: NatToDecimal(i) == NatToDecimal(j) ==> i == j
  {
    forall i: nat, j: nat | NatToDecimal(i) == NatToDecimal(j) ensures i == j {
      DigitsOfNat(i);
      DigitsOfNat(j);
    }
  }

  /** Each index of a sequence, written in decimal, reads its element. */
  lemma IndexEntriesAt(items: seq<Value>, i: nat)
    requires i < |items|
    ensures NatToDecimal(i) in IndexEntries(items) && IndexEntries(items)[NatToDecimal(i)] == items[i]
  {
    DecimalInjective();
  }

  /** `Object.entries` of a string lists each character under its index. */
  lemma StringEntries(s: string, i: nat)
    requires i < |s|
    ensures NatToDecimal(i) in EntriesOf(Str(s)) && EntriesOf(Str(s))[NatToDecimal(i)] == Str([s[i]])
  {
    IndexEntriesAt(seq(|s|, j requires 0 <= j < |s| => Str([s[j]])), i);
  }

  /** `Object.entries` of an array lists each element under its index. */
  lemma ArrayEntries(items: seq<Value>, i: nat)
    requires i < |items|
    ensures NatToDecimal(i) in EntriesOf(Arr(items)) && EntriesOf(Arr(items))[NatToDecimal(i)] == items[i]
  {
    IndexEntriesAt(items, i);
  }

  /** `m[key]`, undefined when the key is absent. */
  function Get(m: map<string, Value>, key: string): Value
  {
    if key in m then m[key] else Undefined
  }

  /** Every key some object in `maps` holds. */
  function KeysOf(maps: seq<Value>): set<string>
  {
    if maps == [] then {} else KeysOf(maps[..|maps| - 1]) + EntriesOf(maps[|maps| - 1]).Keys
  }

  /** The values the objects in `maps` hold under `key`, in order. */
  function ValuesAt(maps: seq<Value>, key: string): (r: seq<Value>)
    ensures r != [] <==> key in KeysOf(maps)
  {
    if maps == [] then []
    else
      var last := EntriesOf(maps[|maps| - 1]);
      ValuesAt(maps[..|maps| - 1], key) + (if key in last then [last[key]] else [])
  }

  /** The base value of a key: its first truthy value, or its last value when none is truthy. */
  function Pick(vs: seq<Value>): (r: Value)
    requires vs != []
    ensures r in vs
    ensures Truthy(r) <==> exists i :: 0 <= i < |vs| && Truthy(vs[i])
    ensures Truthy(r) ==> exists i :: 0 <= i < |vs| && vs[i] == r && forall j :: 0 <= j < i ==> !Truthy(vs[j])
    ensures !Truthy(r) ==> r == vs[|vs| - 1]
  {
    if Truthy(vs[0]) || |vs| == 1 then vs[0] else Pick(vs[1..])
  }

  /** One `if (!acc[key]) acc[key] = curr[key]` pass of the base reduce, over the keys in `done`. */
  function BaseStepOn(acc: map<string, Value>, curr: map<string, Value>, done: set<string>): (r: map<string, Value>)
    requires done <= curr.Keys
    ensures r.Keys == acc.Keys + done
  {
    map k | k in acc.Keys + done :: if k in done && !Truthy(Get(acc, k)) then curr[k] else acc[k]
  }

  /** `allMaps.reduce(...)` building `baseMap`. */
  function BaseMap(maps: seq<Value>): (r: map<string, Value>)
    ensures r.Keys == KeysOf(maps)
  {
    if maps == [] then map[]
    else
      var curr := EntriesOf(maps[|maps| - 1]);
      BaseStepOn(BaseMap(maps[..|maps| - 1]), curr, curr.Keys)
  }

  lemma {:induction false} PickSnoc(vs: seq<Value>, v: Value)
    requires vs != []
    ensures Pick(vs + [v]) == if Truthy(Pick(vs)) then Pick(vs) else v
    decreases |vs|
  {
    if |vs| == 1 {
      assert (vs + [v])[1..] == [v];
    } else {
      assert (vs + [v])[1..] == vs[1..] + [v];
      if !Truthy(vs[0]) {
        PickSnoc(vs[1..], v);
      }
    }
  }

  /** The value `baseMap` holds under `key`, if any. */
  function BaseAt(vs: seq<Value>): Value
  {
    if vs == [] then Undefined else Pick(vs)
  }

  /** The base map holds exactly the keys of the found maps, each with its first truthy value (else its last). */
  lemma {:induction false} BaseMapAt(maps: seq<Value>, key: string)
    ensures key in BaseMap(maps) <==> key in KeysOf(maps)
    ensures Get(BaseMap(maps), key) == BaseAt(ValuesAt(maps, key))
    decreases |maps|
  {
    if maps != [] {
      var init := maps[..|maps| - 1];
      BaseMapAt(init, key);
      var curr := EntriesOf(maps[|maps| - 1]);
      var acc := BaseMap(init);
      var before := ValuesAt(init, key);
      assert BaseMap(maps) == BaseStepOn(acc, curr, curr.Keys);
      if key in curr {
        assert ValuesAt(maps, key) == before + [curr[key]];
        if before != [] {
          PickSnoc(before, curr[key]);
        } else {
          assert before + [curr[key]] == [curr[key]];
        }
      } else {
        assert ValuesAt(maps, key) == before;
      }
    }
  }

  /** Strings as string values. */
  function StrValues(ss: seq<string>): (r: seq<Value>)
    ensures |r| == |ss|
    ensures forall i :: 0 <= i < |ss| ==> r[i] == Str(ss[i])
  {
    if ss == [] then [] else [Str(ss[0])] + StrValues(ss[1..])
  }

  /** One `acc[key]` update of the plus or rate reduce: a numeric value is added (`acc[key] += Number(val)`),
      any other is merged into the comma list `acc[key]`, which fails when `acc[key]` is not a string. */
  function AccumulateStep(acc: Value, val: Value): Result<Value, TagError>
  {
    if !ToNumber(val).NaN? then Success(JsAdd(OrZero(acc), Num(ToNumber(val))))
    else MergeText(acc, val)
  }

  /** The non-numeric branch: `acc[key] = [].concat(acc[key].split(','), val).filter(v => !!v).join(',')`. */
  function MergeText(acc: Value, val: Value): Result<Value, TagError>
  {
    var a := Or(acc, Str(""));
    if a.Str? then Success(Str(Join(ElementTexts(Filter(Truthy, StrValues(Split(a.s, ',')) + Spread(val))), ',')))
    else Failure(NoSplit)
  }

  /** Every key of `keys` (all in `curr`) can be folded into `acc`. */
  predicate StepsSucceed(acc: map<string, Value>, curr: map<string, Value>, keys: set<string>)
    requires keys <= curr.Keys
  {
    forall k :: k in keys ==> AccumulateStep(Get(acc, k), curr[k]).Success?
  }

  /** `acc` after the callback has handled the keys in `keys`. */
  function AccumulateOn(acc: map<string, Value>, curr: map<string, Value>, keys: set<string>): map<string, Value>
    requires keys <= curr.Keys && StepsSucceed(acc, curr, keys)
  {
    map k | k in acc.Keys + keys :: if k in keys then AccumulateStep(Get(acc, k), curr[k]).value else acc[k]
  }

  /** One call of the plus or rate reduce callback. */
  function AccumulateInto(acc: map<string, Value>, curr: map<string, Value>): Result<map<string, Value>, TagError>
  {
    if StepsSucceed(acc, curr, curr.Keys) then Success(AccumulateOn(acc, curr, curr.Keys)) else Failure(NoSplit)
  }

  /** `plusMaps.reduce(...)` (and `rateMaps.reduce(...)`). */
  function Accumulate(maps: seq<Value>): (r: Result<map<string, Value>, TagError>)
    ensures r.Failure? ==> r == Failure(NoSplit)
  {
    if maps == [] then Success(map[])
    else
      var prev := Accumulate(maps[..|maps| - 1]);
      if prev.Failure? then prev else AccumulateInto(prev.value, EntriesOf(maps[|maps| - 1]))
  }

  /** The accumulation of one key's values on their own. */
  function AccumulateKey(vals: seq<Value>): Result<Value, TagError>
  {
    if vals == [] then Success(Undefined)
    else
      var prev := AccumulateKey(vals[..|vals| - 1]);
      if prev.Failure? then prev else AccumulateStep(prev.value, vals[|vals| - 1])
  }

  lemma AccumulateKeySnoc(vals: seq<Value>, v: Value)
    ensures AccumulateKey(vals + [v]) == if AccumulateKey(vals).Failure? then AccumulateKey(vals) else AccumulateStep(AccumulateKey(vals).value, v)
  {
    assert (vals + [v])[..|vals|] == vals;
  }

  /** The reduce treats every key on its own: each accumulated entry is the key's own accumulation. */
  lemma {:induction false} AccumulateAt(maps: seq<Value>, key: string)
    requires Accumulate(maps).Success?
    ensures key in Accumulate(maps).value <==> key in KeysOf(maps)
    ensures AccumulateKey(ValuesAt(maps, key)) == Success(Get(Accumulate(maps).value, key))
    decreases |maps|
  {
    if maps != [] {
      var init := maps[..|maps| - 1];
      var curr := EntriesOf(maps[|maps| - 1]);
      AccumulateAt(init, key);
      var prev := Accumulate(init).value;
      var before := ValuesAt(init, key);
      assert StepsSucceed(prev, curr, curr.Keys);
      var next := AccumulateOn(prev, curr, curr.Keys);
      assert Accumulate(maps) == Success(next);
      if key in curr {
        assert ValuesAt(maps, key) == before + [curr[key]];
        AccumulateKeySnoc(before, curr[key]);
        var step := AccumulateStep(Get(prev, key), curr[key]);
        assert step.Success?;
        assert AccumulateKey(before + [curr[key]]) == step;
        assert Get(next, key) == step.value;
      } else {
        assert ValuesAt(maps, key) == before;
        assert Get(next, key) == Get(prev, key);
      }
    }
  }

  /** The reduce fails exactly when some key's own accumulation fails. */
  lemma AccumulateFails(maps: seq<Value>)
    ensures Accumulate(maps).Failure? <==> exists key :: key in KeysOf(maps) && AccumulateKey(ValuesAt(maps, key)).Failure?
  {
    if Accumulate(maps).Success? {
      forall key | key in KeysOf(maps)
        ensures AccumulateKey(ValuesAt(maps, key)).Success?
      {
        AccumulateAt(maps, key);
      }
    } else {
      var key := FailingKey(maps);
    }
  }

  /** A key whose own accumulation fails, when the reduce fails. */
  lemma {:induction false} FailingKey(maps: seq<Value>) returns (key: string)
    requires Accumulate(maps).Failure?
    ensures key in KeysOf(maps) && AccumulateKey(ValuesAt(maps, key)).Failure?
    decreases |maps|
  {
    var init := maps[..|maps| - 1];
    var curr := EntriesOf(maps[|maps| - 1]);
    if Accumulate(init).Failure? {
      key := FailingKey(init);
      var before := ValuesAt(init, key);
      if key in curr {
        assert ValuesAt(maps, key) == before + [curr[key]];
        AccumulateKeySnoc(before, curr[key]);
      } else {
        assert ValuesAt(maps, key) == before;
      }
    } else {
      var prev := Accumulate(init).value;
      assert Accumulate(maps) == AccumulateInto(prev, curr);
      assert !StepsSucceed(prev, curr, curr.Keys);
      key :| key in curr && AccumulateStep(Get(prev, key), curr[key]).Failure?;
      AccumulateAt(init, key);
      var before := ValuesAt(init, key);
      assert ValuesAt(maps, key) == before + [curr[key]];
      AccumulateKeySnoc(before, curr[key]);
    }
  }

  /** Every value is numeric (`!isNaN(Number(v))`). */
  predicate AllNumeric(vs: seq<Value>)
  {
    forall i :: 0 <= i < |vs| ==> ToNumber(vs[i]).Finite?
  }

  /** The sum of the numbers of numeric values. */
  function NumericSum(vs: seq<Value>): real
    requires AllNumeric(vs)
  {
    if vs == [] then 0.0 else NumericSum(vs[..|vs| - 1]) + ToNumber(vs[|vs| - 1]).r
  }

  /** A key whose values are all numeric accumulates their sum. */
  lemma {:induction false} AccumulateNumbers(vals: seq<Value>)
    requires vals != [] && AllNumeric(vals)
    ensures AccumulateKey(vals) == Success(Num(Finite(NumericSum(vals))))
    decreases |vals|
  {
    var init := vals[..|vals| - 1];
    var x := ToNumber(vals[|vals| - 1]);
    assert AllNumeric(init) by {
      forall i | 0 <= i < |init| ensures ToNumber(init[i]).Finite? {
        assert init[i] == vals[i];
      }
    }
    if init != [] {
      AccumulateNumbers(init);
    } else {
      assert AccumulateKey(init) == Success(Undefined);
    }
    NumericStep(AccumulateKey(init).value, vals[|vals| - 1], NumericSum(init));
  }

  /** A numeric value is added to the running sum, an undefined `acc[key]` counting as 0. */
  lemma NumericStep(acc: Value, v: Value, sum: real)
    requires ToNumber(v).Finite? && OrZero(acc) == Num(Finite(sum))
    ensures AccumulateStep(acc, v) == Success(Num(Finite(sum + ToNumber(v).r)))
  {
    AddFinite(sum, ToNumber(v));
  }

  lemma AddFinite(sum: real, n: JsNumber)
    requires n.Finite?
    ensures JsAdd(Num(Finite(sum)), Num(n)) == Num(Finite(sum + n.r))
  {
    assert AddNumbers(Finite(sum), n) == Finite(sum + n.r);
  }

  /** A comma-free word, which is not a number; such values accumulate as a list. */
  predicate PlainText(t: string)
  {
    StartsAsWord(t) && ',' !in t
  }

  /** A key whose values are all plain texts accumulates their comma-joined list. */
  lemma {:induction false} AccumulateTexts(vals: seq<Value>, texts: seq<string>)
    requires texts != [] && vals == StrValues(texts)
    requires forall i :: 0 <= i < |texts| ==> PlainText(texts[i])
    ensures AccumulateKey(vals) == Success(Str(Join(texts, ',')))
    decreases |texts|, 0
  {
    var n := |texts| - 1;
    var pieces := texts[..n];
    StrValuesPrefix(texts, n);
    PlainPrefix(texts, n);
    var prev := TextsSoFar(vals[..n], pieces);
    LastText(prev, pieces, texts[n]);
    Snoc(texts);
  }

  /** A prefix of plain texts is plain texts. */
  lemma PlainPrefix(texts: seq<string>, n: nat)
    requires n <= |texts|
    requires forall i :: 0 <= i < |texts| ==> PlainText(texts[i])
    ensures forall i :: 0 <= i < n ==> PlainText(texts[..n][i])
  {
  }

  /** The values of a prefix are the prefix of the values. */
  lemma StrValuesPrefix(ss: seq<string>, n: nat)
    requires n <= |ss|
    ensures StrValues(ss)[..n] == StrValues(ss[..n])
  {
    assert forall i :: 0 <= i < n ==> StrValues(ss)[..n][i] == StrValues(ss[..n])[i];
  }

  lemma LastText(prev: Value, pieces: seq<string>, t: string)
    requires PlainText(t)
    requires Or(prev, Str("")) == Str(Join(pieces, ','))
    requires Filter(Truthy, StrValues(Split(Join(pieces, ','), ','))) == StrValues(pieces)
    requires forall i :: 0 <= i < |pieces| ==> pieces[i] != ""
    ensures AccumulateStep(prev, Str(t)) == Success(Str(Join(pieces + [t], ',')))
  {
    WordIsNaN(t);
    TextStep(StrValues(Split(Join(pieces, ','), ',')), pieces, t);
    assert Spread(Str(t)) == [Str(t)];
  }

  /** The accumulated list before the last text, and the pieces splitting it gives back. */
  lemma {:induction false} TextsSoFar(init: seq<Value>, pieces: seq<string>) returns (prev: Value)
    requires init == StrValues(pieces)
    requires forall i :: 0 <= i < |pieces| ==> PlainText(pieces[i])
    ensures AccumulateKey(init) == Success(prev)
    ensures Or(prev, Str("")) == Str(Join(pieces, ','))
    ensures Filter(Truthy, StrValues(Split(Join(pieces, ','), ','))) == StrValues(pieces)
    ensures forall i :: 0 <= i < |pieces| ==> pieces[i] != ""
    decreases |pieces|, 1
  {
    if pieces != [] {
      AccumulateTexts(init, pieces);
      prev := Str(Join(pieces, ','));
      SplitJoin(pieces, ',');
      PlainTexts(pieces);
    } else {
      prev := Undefined;
      assert Split("", ',') == [""];
      assert StrValues([""])[1..] == [];
    }
  }


  /** Merging a non-empty text into a list whose surviving pieces are `pieces`. */
  lemma TextStep(split: seq<Value>, pieces: seq<string>, t: string)
    requires forall i :: 0 <= i < |pieces| ==> pieces[i] != ""
    requires t != ""
    requires Filter(Truthy, split) == StrValues(pieces)
    ensures Join(ElementTexts(Filter(Truthy, split + [Str(t)])), ',') == Join(pieces + [t], ',')
  {
    FilterConcat(Truthy, split, [Str(t)]);
    assert Truthy(Str(t));
    FilterAll(Truthy, [Str(t)]);
    StrValuesSnoc(pieces, t);
    NonEmptySnoc(pieces, t);
    PlainTexts(pieces + [t]);
  }

  lemma NonEmptySnoc(pieces: seq<string>, t: string)
    requires forall i :: 0 <= i < |pieces| ==> pieces[i] != ""
    requires t != ""
    ensures forall i :: 0 <= i < |pieces + [t]| ==> (pieces + [t])[i] != ""
  {
  }

  lemma StrValuesSnoc(ss: seq<string>, t: string)
    ensures StrValues(ss) + [Str(t)] == StrValues(ss + [t])
  {
  }

  /** After a truthy number, a non-numeric value cannot be merged in: `acc[key].split` is not a function. */
  lemma NumberThenText(vals: seq<Value>, v: Value)
    requires AccumulateKey(vals).Success? && AccumulateKey(vals).value.Num? && Truthy(AccumulateKey(vals).value)
    requires ToNumber(v).NaN?
    ensures AccumulateKey(vals + [v]) == Failure(NoSplit)
  {
    AccumulateKeySnoc(vals, v);
  }

  /** A non-empty text (`v => !!v` on strings). */
  predicate NonEmpty(t: string)
  {
    t != ""
  }

  /** `1 + n * 0.01`, the factor a rate in percent scales by. */
  function RateFactor(n: JsNumber): JsNumber
  {
    AddNumbers(Finite(1.0), MulNumbers(n, Finite(0.01)))
  }

  /** `(Number(base || 0) + Number(plus || 0)) * (1 + Number(rate || 0) * 0.01)`. */
  function NumericMerge(base: Value, plus: Value, rate: Value): JsNumber
  {
    MulNumbers(AddNumbers(ToNumber(OrZero(base)), ToNumber(OrZero(plus))), RateFactor(ToNumber(OrZero(rate))))
  }

  /** The comma lists of `base || ''` and `plus || ''` merged, or the `TypeError` of splitting a non-string. */
  function TextMerge(base: Value, plus: Value): Result<Value, TagError>
  {
    var b := Or(base, Str(""));
    var p := Or(plus, Str(""));
    if b.Str? && p.Str? then Success(Str(Join(Filter(NonEmpty, Split(b.s, ',') + Split(p.s, ',')), ',')))
    else Failure(NoSplit)
  }

  /** The final value of one key: the numeric merge when any of base, plus and rate is numeric, the text merge otherwise. */
  function MergeKey(base: Value, plus: Value, rate: Value): Result<Value, TagError>
  {
    if !ToNumber(base).NaN? || !ToNumber(plus).NaN? || !ToNumber(rate).NaN? then Success(Num(NumericMerge(base, plus, rate)))
    else TextMerge(base, plus)
  }

  /** Numeric parts combine like a number field: base plus the bonus, scaled by the rate in percent. */
  lemma MergeNumbers(b: real, p: real, r: real)
    ensures MergeKey(Num(Finite(b)), Num(Finite(p)), Num(Finite(r))) == Success(Num(MulNumbers(Finite(b + p), Finite(1.0 + r * 0.01))))
  {
  }

  /** A key that only the base map holds keeps its numeric value. */
  lemma MergeBaseOnly(b: real)
    ensures MergeKey(Num(Finite(b)), Undefined, Undefined) == Success(Num(Finite(b)))
  {
    assert ToNumber(OrZero(Undefined)) == Finite(0.0);
  }

  /** A key that only the plus maps hold gets its accumulated bonus. */
  lemma MergePlusOnly(p: real)
    ensures MergeKey(Undefined, Num(Finite(p)), Undefined) == Success(Num(Finite(p)))
  {
    assert ToNumber(OrZero(Undefined)) == Finite(0.0);
  }

  /** Between non-numeric parts the rate plays no role. */
  lemma MergeIgnoresRate(base: Value, plus: Value, rate: Value)
    requires ToNumber(base).NaN? && ToNumber(plus).NaN? && ToNumber(rate).NaN?
    ensures MergeKey(base, plus, rate) == MergeKey(base, plus, Undefined)
  {
  }

  /** Two comma lists of plain words merge into one list, base pieces first. */
  lemma MergeLists(bs: seq<string>, ps: seq<string>, rate: Value)
    requires bs != [] && ps != []
    requires forall i :: 0 <= i < |bs| ==> PlainText(bs[i])
    requires forall i :: 0 <= i < |ps| ==> PlainText(ps[i])
    requires ToNumber(rate).NaN?
    ensures MergeKey(Str(Join(bs, ',')), Str(Join(ps, ',')), rate) == Success(Str(Join(bs + ps, ',')))
  {
    JoinStartsWith(bs, ',');
    JoinStartsWith(ps, ',');
    var b := Join(bs, ',');
    var p := Join(ps, ',');
    JoinedWordsStartAsWord(bs);
    JoinedWordsStartAsWord(ps);
    WordIsNaN(b);
    WordIsNaN(p);
    assert Or(Str(b), Str("")) == Str(b) && Or(Str(p), Str("")) == Str(p);
    ListsMerge(bs, ps);
  }

  /** A comma list of plain words starts like a word and, having a comma or being one word, is not `Infinity`. */
  lemma JoinedWordsStartAsWord(ws: seq<string>)
    requires ws != [] && forall i :: 0 <= i < |ws| ==> PlainText(ws[i])
    ensures StartsAsWord(Join(ws, ','))
  {
    assert PlainText(ws[0]);
    JoinStartsWith(ws, ',');
    if |ws| > 1 {
      JoinHasComma(ws);
    }
  }

  lemma JoinHasComma(ws: seq<string>)
    requires |ws| > 1
    ensures Trim(Join(ws, ',')) != "Infinity"
  {
    var b := Join(ws, ',');
    var k := |ws[0]|;
    assert b == ws[0] + [','] + Join(ws[1..], ',');
    assert b[k] == ',';
    TrimKeepsNonSpace(b, k);
    NoCommaInInfinity();
  }

  lemma NoCommaInInfinity()
    ensures ',' !in "Infinity"
  {
  }

  lemma ListsMerge(bs: seq<string>, ps: seq<string>)
    requires bs != [] && ps != []
    requires forall i :: 0 <= i < |bs| ==> PlainText(bs[i])
    requires forall i :: 0 <= i < |ps| ==> PlainText(ps[i])
    ensures Join(Filter(NonEmpty, Split(Join(bs, ','), ',') + Split(Join(ps, ','), ',')), ',') == Join(bs + ps, ',')
  {
    SplitJoin(bs, ',');
    SplitJoin(ps, ',');
    WordsConcat(bs, ps);
  }

  lemma WordsConcat(bs: seq<string>, ps: seq<string>)
    requires forall i :: 0 <= i < |bs| ==> PlainText(bs[i])
    requires forall i :: 0 <= i < |ps| ==> PlainText(ps[i])
    ensures Filter(NonEmpty, bs + ps) == bs + ps
  {
    var all := bs + ps;
    forall i | 0 <= i < |all|
      ensures NonEmpty(all[i])
    {
      if i < |bs| {
        assert all[i] == bs[i];
      } else {
        assert all[i] == ps[i - |bs|];
      }
    }
    FilterAll(NonEmpty, all);
  }

  /** A comma-joined list of plain words starts with its first word and holds no empty piece. */
  lemma JoinStartsWith(ws: seq<string>, sep: char)
    requires ws != [] && ws[0] != ""
    ensures Join(ws, sep) != "" && Join(ws, sep)[0] == ws[0][0]
  {
  }

  /** A numeric base or bonus next to a non-string part is an error only in the list case:
      a truthy non-string, non-numeric base cannot be split. */
  lemma MergeNoSplit(base: Value, plus: Value, rate: Value)
    requires ToNumber(base).NaN? && ToNumber(plus).NaN? && ToNumber(rate).NaN?
    requires Truthy(base) && !base.Str?
    ensures MergeKey(base, plus, rate) == Failure(NoSplit)
  {
  }

  /** Every key of `keys` merges successfully. */
  predicate MergesSucceed(base: map<string, Value>, plus: map<string, Value>, rate: map<string, Value>, keys: set<string>)
  {
    forall k :: k in keys ==> MergeKey(Get(base, k), Get(plus, k), Get(rate, k)).Success?
  }

  /** `obj` once the keys in `keys` are merged. */
  function MergeOn(base: map<string, Value>, plus: map<string, Value>, rate: map<string, Value>, keys: set<string>): map<string, Value>
    requires MergesSucceed(base, plus, rate, keys)
  {
    map k | k in keys :: MergeKey(Get(base, k), Get(plus, k), Get(rate, k)).value
  }

  /** The final loop over `allKeys`, the union of the three maps' keys. */
  function Merge(base: map<string, Value>, plus: map<string, Value>, rate: map<string, Value>): (r: Result<map<string, Value>, TagError>)
    ensures r.Success? ==> r.value.Keys == base.Keys + plus.Keys + rate.Keys
  {
    var keys := base.Keys + plus.Keys + rate.Keys;
    if MergesSucceed(base, plus, rate, keys) then Success(MergeOn(base, plus, rate, keys)) else Failure(NoSplit)
  }

  /** The value of a map field from the found maps, bonus maps and rate maps. */
  function MapResult(allMaps: seq<Value>, plusMaps: seq<Value>, rateMaps: seq<Value>): (r: Result<Value, TagError>)
    ensures r.Success? ==> r.value.Dict?
  {
    var plus := Accumulate(plusMaps);
    var rate := Accumulate(rateMaps);
    if plus.Failure? || rate.Failure? then Failure(NoSplit)
    else
      var merged := Merge(BaseMap(allMaps), plus.value, rate.value);
      if merged.Failure? then Failure(NoSplit) else Success(Dict(merged.value))
  }

  /** The map holds every key any found map holds, each merged from its own base, bonus and rate. */
  lemma MapResultAt(allMaps: seq<Value>, plusMaps: seq<Value>, rateMaps: seq<Value>, key: string)
    requires MapResult(allMaps, plusMaps, rateMaps).Success?
    ensures key in MapResult(allMaps, plusMaps, rateMaps).value.entries <==>
      key in KeysOf(allMaps) + KeysOf(plusMaps) + KeysOf(rateMaps)
    ensures AccumulateKey(ValuesAt(plusMaps, key)).Success? && AccumulateKey(ValuesAt(rateMaps, key)).Success? &&
      (key in MapResult(allMaps, plusMaps, rateMaps).value.entries ==>
        Success(MapResult(allMaps, plusMaps, rateMaps).value.entries[key]) ==
        MergeKey(BaseAt(ValuesAt(allMaps, key)), AccumulateKey(ValuesAt(plusMaps, key)).value, AccumulateKey(ValuesAt(rateMaps, key)).value))
  {
    BaseMapAt(allMaps, key);
    AccumulateAt(plusMaps, key);
    AccumulateAt(rateMaps, key);
  }

  lemma OracleBase(allMaps: seq<Value>, b: string)
    requires allMaps == [Dict(map[b := Num(Finite(5.0))]), Dict(map[b := Num(Finite(20.0))])]
    ensures BaseMap(allMaps) == map[b := Num(Finite(5.0))]
  {
    var first := allMaps[..1];
    assert first[..0] == [];
    assert BaseStepOn(map[], map[b := Num(Finite(5.0))], {b}) == map[b := Num(Finite(5.0))];
    assert BaseMap(first) == map[b := Num(Finite(5.0))];
    assert allMaps[..|allMaps| - 1] == first;
    assert BaseStepOn(map[b := Num(Finite(5.0))], map[b := Num(Finite(20.0))], {b}) == map[b := Num(Finite(5.0))];
  }

  lemma OracleBonus(plusMaps: seq<Value>, a: string)
    requires plusMaps == [Dict(map[a := Num(Finite(100.0))])]
    ensures Accumulate(plusMaps) == Success(map[a := Num(Finite(100.0))])
  {
    var m := map[a := Num(Finite(100.0))];
    assert plusMaps[..0] == [];
    assert Accumulate(plusMaps) == AccumulateInto(map[], m);
    assert m.Keys == {a};
    assert AccumulateStep(Undefined, Num(Finite(100.0))) == Success(Num(Finite(100.0)));
    assert StepsSucceed(map[], m, m.Keys);
    assert AccumulateOn(map[], m, m.Keys) == m;
  }

  lemma OracleMerge(base: map<string, Value>, plus: map<string, Value>, rate: map<string, Value>, a: string, b: string)
    requires a != b
    requires base == map[b := Num(Finite(5.0))] && plus == map[a := Num(Finite(100.0))] && rate == map[]
    ensures Merge(base, plus, rate) == Success(map[a := Num(Finite(100.0)), b := Num(Finite(5.0))])
  {
    var keys := base.Keys + plus.Keys + rate.Keys;
    assert keys == {a, b};
    OracleMergeOn(base, plus, rate, keys, a, b);
  }

  lemma OracleMergeOn(base: map<string, Value>, plus: map<string, Value>, rate: map<string, Value>, keys: set<string>, a: string, b: string)
    requires a != b && keys == {a, b}
    requires base == map[b := Num(Finite(5.0))] && plus == map[a := Num(Finite(100.0))] && rate == map[]
    ensures MergesSucceed(base, plus, rate, keys)
    ensures MergeOn(base, plus, rate, keys) == map[a := Num(Finite(100.0)), b := Num(Finite(5.0))]
  {
    MergePlusOnly(100.0);
    MergeBaseOnly(5.0);
    assert Get(base, a) == Undefined && Get(plus, a) == Num(Finite(100.0)) && Get(rate, a) == Undefined;
    assert Get(base, b) == Num(Finite(5.0)) && Get(plus, b) == Undefined && Get(rate, b) == Undefined;
    MergesPair(base, plus, rate, keys, a, b);
    var m := MergeOn(base, plus, rate, keys);
    MapOfPair(m, a, b, Num(Finite(100.0)), Num(Finite(5.0)));
  }

  lemma MergesPair(base: map<string, Value>, plus: map<string, Value>, rate: map<string, Value>, keys: set<string>, a: string, b: string)
    requires keys == {a, b}
    requires MergeKey(Get(base, a), Get(plus, a), Get(rate, a)).Success?
    requires MergeKey(Get(base, b), Get(plus, b), Get(rate, b)).Success?
    ensures MergesSucceed(base, plus, rate, keys)
    ensures MergeOn(base, plus, rate, keys).Keys == {a, b}
  {
    forall k | k in keys
      ensures MergeKey(Get(base, k), Get(plus, k), Get(rate, k)).Success?
    {
      if k != a {
        assert k == b;
      }
    }
  }

  lemma MapOfPair(m: map<string, Value>, a: string, b: string, x: Value, y: Value)
    requires a != b && m.Keys == {a, b} && m[a] == x && m[b] == y
    ensures m == map[a := x, b := y]
  {
  }

  /** The map test oracle: base `b` 5 (overshadowing 20) and bonus `a` 100 give `{a: 100, b: 5}`. */
  lemma MapOracle(allMaps: seq<Value>, plusMaps: seq<Value>, rateMaps: seq<Value>, a: string, b: string)
    requires a == "a" && b == "b"
    requires allMaps == [Dict(map[b := Num(Finite(5.0))]), Dict(map[b := Num(Finite(20.0))])]
    requires plusMaps == [Dict(map[a := Num(Finite(100.0))])] && rateMaps == []
    ensures MapResult(allMaps, plusMaps, rateMaps) == Success(Dict(map[a := Num(Finite(100.0)), b := Num(Finite(5.0))]))
  {
    assert a[0] != b[0];
    OracleBase(allMaps, b);
    OracleBonus(plusMaps, a);
    OracleMerge(BaseMap(allMaps), Accumulate(plusMaps).value, map[], a, b);
  }

  // ---------------------------------------------------------------------------
  // The map merge as the source runs it: reduce callbacks updating their accumulator in place

  lemma BaseStepOnNext(before: map<string, Value>, curr: map<string, Value>, todo: set<string>, key: string)
    requires todo <= curr.Keys && key in todo
    ensures var acc := BaseStepOn(before, curr, curr.Keys - todo);
      BaseStepOn(before, curr, curr.Keys - (todo - {key})) == if !Truthy(Get(acc, key)) then acc[key := curr[key]] else acc
  {
    assert curr.Keys - (todo - {key}) == curr.Keys - todo + {key};
  }

  /** The base reduce callback: `if (!acc[key]) acc[key] = curr[key]` for every entry of `curr`. */
  method BaseCallback(start: map<string, Value>, curr: map<string, Value>) returns (acc: map<string, Value>)
    ensures acc == BaseStepOn(start, curr, curr.Keys)
  {
    acc := start;
    var todo := curr.Keys;
    while todo != {}
      invariant todo <= curr.Keys
      invariant acc == BaseStepOn(start, curr, curr.Keys - todo)
      decreases |todo|
    {
      var key :| key in todo;
      BaseStepOnNext(start, curr, todo, key);
      if !Truthy(Get(acc, key)) {
        acc := acc[key := curr[key]];
      }
      todo := todo - {key};
    }
    assert curr.Keys - todo == curr.Keys;
  }

  lemma BaseMapSnoc(maps: seq<Value>, i: nat)
    requires i < |maps|
    ensures BaseMap(maps[..i + 1]) == BaseStepOn(BaseMap(maps[..i]), EntriesOf(maps[i]), EntriesOf(maps[i]).Keys)
  {
    assert maps[..i + 1][..i] == maps[..i];
  }

  /** `allMaps.reduce(...)` building `baseMap`: every entry of every found map, kept unless the key already holds a truthy value. */
  method ComputeBaseMap(maps: seq<Value>) returns (acc: map<string, Value>)
    ensures acc == BaseMap(maps)
  {
    acc := map[];
    var i := 0;
    while i < |maps|
      invariant 0 <= i <= |maps|
      invariant acc == BaseMap(maps[..i])
    {
      BaseMapSnoc(maps, i);
      acc := BaseCallback(acc, EntriesOf(maps[i]));
      i := i + 1;
    }
    assert maps[..i] == maps;
  }

  lemma AccumulateOnKeys(before: map<string, Value>, curr: map<string, Value>, todo: set<string>, key: string)
    requires todo <= curr.Keys && key in todo
    requires StepsSucceed(before, curr, curr.Keys - todo)
    requires AccumulateStep(Get(before, key), curr[key]).Success?
    ensures StepsSucceed(before, curr, curr.Keys - (todo - {key}))
  {
    assert curr.Keys - (todo - {key}) == curr.Keys - todo + {key};
  }

  lemma AccumulateOnNext(before: map<string, Value>, curr: map<string, Value>, todo: set<string>, key: string)
    requires todo <= curr.Keys && key in todo
    requires StepsSucceed(before, curr, curr.Keys - todo)
    requires StepsSucceed(before, curr, curr.Keys - (todo - {key}))
    ensures var acc := AccumulateOn(before, curr, curr.Keys - todo);
      Get(acc, key) == Get(before, key) &&
      AccumulateOn(before, curr, curr.Keys - (todo - {key})) == acc[key := AccumulateStep(Get(before, key), curr[key]).value]
  {
    assert curr.Keys - (todo - {key}) == curr.Keys - todo + {key};
  }

  /** The plus and rate reduce callback: `acc[key]` updated for every entry of `curr`; a value that
      cannot be merged throws. */
  method AccumulateCallback(start: map<string, Value>, curr: map<string, Value>) returns (r: Result<map<string, Value>, TagError>)
    ensures r == AccumulateInto(start, curr)
  {
    var acc := start;
    var todo := curr.Keys;
    while todo != {}
      invariant todo <= curr.Keys
      invariant StepsSucceed(start, curr, curr.Keys - todo)
      invariant acc == AccumulateOn(start, curr, curr.Keys - todo)
      decreases |todo|
    {
      var key :| key in todo;
      var step := AccumulateStep(Get(acc, key), curr[key]);
      if step.Failure? {
        AccumulateCurrentKey(start, curr, todo, key);
        return Failure(NoSplit);
      }
      AccumulateCurrentKey(start, curr, todo, key);
      AccumulateOnKeys(start, curr, todo, key);
      AccumulateOnNext(start, curr, todo, key);
      acc := acc[key := step.value];
      todo := todo - {key};
    }
    assert curr.Keys - todo == curr.Keys;
    r := Success(acc);
  }

  /** Before a key is handled, the accumulator still holds its value from earlier maps. */
  lemma AccumulateCurrentKey(start: map<string, Value>, curr: map<string, Value>, todo: set<string>, key: string)
    requires todo <= curr.Keys && key in todo
    requires StepsSucceed(start, curr, curr.Keys - todo)
    ensures Get(AccumulateOn(start, curr, curr.Keys - todo), key) == Get(start, key)
  {
  }

  lemma AccumulateSnoc(maps: seq<Value>, i: nat)
    requires i < |maps| && Accumulate(maps[..i]).Success?
    ensures Accumulate(maps[..i + 1]) == AccumulateInto(Accumulate(maps[..i]).value, EntriesOf(maps[i]))
  {
    assert maps[..i + 1][..i] == maps[..i];
  }

  /** Once a prefix of the maps fails, the whole reduce fails. */
  lemma {:induction false} AccumulateFailsFrom(maps: seq<Value>, i: nat)
    requires i <= |maps| && Accumulate(maps[..i]).Failure?
    ensures Accumulate(maps) == Failure(NoSplit)
    decreases |maps| - i
  {
    if i == |maps| {
      assert maps[..i] == maps;
    } else {
      assert maps[..i + 1][..i] == maps[..i];
      AccumulateFailsFrom(maps, i + 1);
    }
  }

  /** `plusMaps.reduce(...)` (and `rateMaps.reduce(...)`); a throwing callback aborts the reduce. */
  method AccumulateMaps(maps: seq<Value>) returns (r: Result<map<string, Value>, TagError>)
    ensures r == Accumulate(maps)
  {
    var acc: map<string, Value> := map[];
    var i := 0;
    while i < |maps|
      invariant 0 <= i <= |maps|
      invariant Accumulate(maps[..i]) == Success(acc)
    {
      AccumulateSnoc(maps, i);
      var next := AccumulateCallback(acc, EntriesOf(maps[i]));
      if next.Failure? {
        AccumulateFailsFrom(maps, i + 1);
        return Failure(NoSplit);
      }
      acc := next.value;
      i := i + 1;
    }
    assert maps[..i] == maps;
    r := Success(acc);
  }

  lemma MergeOnNext(base: map<string, Value>, plus: map<string, Value>, rate: map<string, Value>, keys: set<string>, todo: set<string>, key: string)
    requires key in todo && todo <= keys
    requires MergesSucceed(base, plus, rate, keys - todo)
    requires MergeKey(Get(base, key), Get(plus, key), Get(rate, key)).Success?
    ensures MergesSucceed(base, plus, rate, keys - (todo - {key}))
    ensures MergeOn(base, plus, rate, keys - (todo - {key})) ==
      MergeOn(base, plus, rate, keys - todo)[key := MergeKey(Get(base, key), Get(plus, key), Get(rate, key)).value]
  {
    assert keys - (todo - {key}) == keys - todo + {key};
  }

  /** The final loop: `obj[key]` is set for every key of `allKeys`. */
  method MergeMaps(base: map<string, Value>, plus: map<string, Value>, rate: map<string, Value>) returns (r: Result<map<string, Value>, TagError>)
    ensures r == Merge(base, plus, rate)
  {
    var allKeys := base.Keys + plus.Keys + rate.Keys;
    var obj: map<string, Value> := map[];
    var todo := allKeys;
    while todo != {}
      invariant todo <= allKeys
      invariant MergesSucceed(base, plus, rate, allKeys - todo)
      invariant obj == MergeOn(base, plus, rate, allKeys - todo)
      decreases |todo|
    {
      var key :| key in todo;
      var value := MergeKey(Get(base, key), Get(plus, key), Get(rate, key));
      if value.Failure? {
        return Failure(NoSplit);
      }
      MergeOnNext(base, plus, rate, allKeys, todo, key);
      obj := obj[key := value.value];
      todo := todo - {key};
    }
    assert allKeys - todo == allKeys;
    r := Success(obj);
  }

  /** The `map` case of the getter: base map, bonus map, rate map, then the merge; any failure aborts it. */
  method MapValue(allMaps: seq<Value>, plusMaps: seq<Value>, rateMaps: seq<Value>) returns (r: Result<Value, TagError>)
    ensures r == MapResult(allMaps, plusMaps, rateMaps)
  {
    var baseMap := ComputeBaseMap(allMaps);
    var plusMap := AccumulateMaps(plusMaps);
    if plusMap.Failure? {
      return Failure(NoSplit);
    }
    var rateMap := AccumulateMaps(rateMaps);
    if rateMap.Failure? {
      return Failure(NoSplit);
    }
    var obj := MergeMaps(baseMap, plusMap.value, rateMap.value);
    if obj.Failure? {
      return Failure(NoSplit);
    }
    r := Success(Dict(obj.value));
  }
}
