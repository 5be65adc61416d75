/**
 * The text helpers of the core: parsing a comma-separated list
 * (`stringToArray`), a `#rrggbb` colour (`hexToRgb`), turning `snake_case`
 * into `camelCase` (`kebabToCamelCase`), greedy word wrapping
 * (`getWrappedLines`) and collecting the comment commands of an event
 * (`getComments`).
 */
module CoreText {
  import opened Wrappers
  import opened Strings
  import opened JsValues

  // ---------------------------------------------------------------------------
  // Concatenation of strings

  lemma {:induction false} ConcatAppend(a: seq<string>, b: seq<string>)
    ensures Concat(a + b) == Concat(a) + Concat(b)
  {
    if a != [] {
      ConcatAppend(a[1..], b);
      assert (a + b)[1..] == a[1..] + b;
    } else {
      assert a + b == b;
    }
  }

  lemma ConcatSnoc(a: seq<string>, s: string)
    ensures Concat(a + [s]) == Concat(a) + s
  {
    ConcatAppend(a, [s]);
    assert Concat([s]) == s + Concat([]);
  }

  // ---------------------------------------------------------------------------
  // stringToArray

  /** `str.replace(/,$/, '')`: one trailing comma goes. */
  function DropTrailingComma(s: string): (r: string)
    ensures s != [] && s[|s| - 1] == ',' ==> r + "," == s
    ensures !(s != [] && s[|s| - 1] == ',') ==> r == s
  {
    if s != [] && s[|s| - 1] == ',' then s[..|s| - 1] else s
  }

  /** The text `stringToArray` splits: spaces removed, then a trailing comma dropped (the second space removal finds none left). */
  function ListText(str: string): string
  {
    DropTrailingComma(RemoveAll(str, ' '))
  }

  /** One piece of the list: its number when `Number` reads one, otherwise the trimmed text. */
  function PieceValue(data: string): (v: Value)
    ensures v.Num? || v.Str?
  {
    var n := StringToNumber(Trim(data));
    if n.NaN? then Str(Trim(data)) else Num(n)
  }

  /** The pieces of the list, each read by `PieceValue`. */
  function PieceValues(pieces: seq<string>): (r: seq<Value>)
    ensures |r| == |pieces|
  {
    seq(|pieces|, i requires 0 <= i < |pieces| => PieceValue(pieces[i]))
  }

  /** `stringToArray(str)`: an empty text gives no elements, anything else one per comma-separated piece. */
  function StringToArray(str: string): (r: seq<Value>)
    ensures str == "" ==> r == []
    ensures str != "" ==> |r| == |Split(ListText(str), ',')| == Count(ListText(str), ',') + 1
  {
    if str == "" then []
    else
      SplitCount(ListText(str), ',');
      PieceValues(Split(ListText(str), ','))
  }

  /** Each element of a non-empty text's list is its piece, read by `PieceValue`. */
  lemma StringToArrayPieces(str: string)
    requires str != ""
    ensures forall i :: 0 <= i < |StringToArray(str)| ==> StringToArray(str)[i] == PieceValue(Split(ListText(str), ',')[i])
  {
  }

  /** An empty piece, as between two adjacent commas, reads as the number 0. */
  lemma EmptyPieceIsZero()
    ensures PieceValue("") == Int(0)
  {
    assert Trim("") == "";
  }

  /** A piece that starts like a word stays text. */
  lemma WordPieceIsText(data: string)
    requires StartsAsWord(data)
    ensures PieceValue(data) == Str(Trim(data))
  {
    TrimKeepsFirst(data);
    WordIsNaN(Trim(data));
  }

  /** A hexadecimal piece reads as its number. */
  lemma HexPieceIsNumber()
    ensures PieceValue("0x10") == Num(Finite(16.0))
  {
    TrimUnchanged("0x10");
    HexExample();
  }

  /** A piece `Infinity` reads as the positive infinity, not as text. */
  lemma InfinityPieceIsNumber()
    ensures PieceValue("Infinity") == Num(Infinite(false))
  {
    TrimUnchanged("Infinity");
    InfinityText("");
    assert "" + "Infinity" == "Infinity";
  }

  /** The decimal texts of integers. */
  function IntTexts(ns: seq<int>): (r: seq<string>)
    ensures |r| == |ns| && forall i :: 0 <= i < |ns| ==> r[i] == IntToText(ns[i])
  {
    seq(|ns|, i requires 0 <= i < |ns| => IntToText(ns[i]))
  }

  lemma IntTextChars(n: int)
    ensures var t := IntToText(n);
      t != [] && IsDigit(t[|t| - 1]) && (forall i :: 0 <= i < |t| ==> t[i] == '-' || IsDigit(t[i]))
  {
    var t := IntToText(n);
    var d := NatToDecimal(if n < 0 then -n else n);
    assert t == (if n < 0 then "-" else "") + d;
    assert t[|t| - 1] == d[|d| - 1];
  }

  lemma IntTextShape(n: int)
    ensures IntToText(n) != [] && ' ' !in IntToText(n) && ',' !in IntToText(n)
    ensures IsDigit(IntToText(n)[|IntToText(n)| - 1])
    ensures PieceValue(IntToText(n)) == Int(n)
  {
    var t := IntToText(n);
    IntTextChars(n);
    TrimUnchanged(t);
    IntTextNumber(n, t);
  }

  lemma IntTextNumber(n: int, t: string)
    requires t == IntToText(n) && Trim(t) == t
    ensures PieceValue(t) == Int(n)
  {
    NumberOfIntText(n);
    assert (n as real).Floor == n;
    assert ToText(Int(n)) == t;
  }

  lemma RemoveAllAbsent(s: string, c: char)
    requires c !in s
    ensures RemoveAll(s, c) == s
  {
    if s != [] {
      assert c !in s[1..];
      RemoveAllAbsent(s[1..], c);
    }
  }

  lemma {:induction false} JoinLast(parts: seq<string>, sep: char)
    requires |parts| >= 1 && parts[|parts| - 1] != []
    ensures Join(parts, sep) != [] && Join(parts, sep)[|Join(parts, sep)| - 1] == parts[|parts| - 1][|parts[|parts| - 1]| - 1]
  {
    if |parts| > 1 {
      JoinLast(parts[1..], sep);
    }
  }

  lemma {:induction false} JoinAvoids(parts: seq<string>, sep: char, c: char)
    requires c != sep && forall i :: 0 <= i < |parts| ==> c !in parts[i]
    ensures c !in Join(parts, sep)
  {
    if |parts| > 1 {
      JoinAvoids(parts[1..], sep, c);
    }
  }

  /** Writing integers as a comma-separated list and reading it back gives the same numbers. */
  lemma StringToArrayOfInts(ns: seq<int>)
    requires ns != []
    ensures StringToArray(Join(IntTexts(ns), ',')) == seq(|ns|, i requires 0 <= i < |ns| => Int(ns[i]))
  {
    IntListPieces(ns);
    IntPieceValues(ns);
  }

  /** The list text of integers written with commas splits back into their texts. */
  lemma IntListPieces(ns: seq<int>)
    requires ns != []
    ensures StringToArray(Join(IntTexts(ns), ',')) == PieceValues(IntTexts(ns))
  {
    var texts := IntTexts(ns);
    forall i | 0 <= i < |texts| ensures ' ' !in texts[i] && ',' !in texts[i] {
      IntTextShape(ns[i]);
    }
    IntTextShape(ns[|ns| - 1]);
    JoinLast(texts, ',');
    ListTextOfInts(texts);
    SplitJoin(texts, ',');
  }

  /** Each integer's text reads back as that integer. */
  lemma IntPieceValues(ns: seq<int>)
    ensures PieceValues(IntTexts(ns)) == seq(|ns|, i requires 0 <= i < |ns| => Int(ns[i]))
  {
    var texts := IntTexts(ns);
    var want := seq(|ns|, i requires 0 <= i < |ns| => Int(ns[i]));
    forall i | 0 <= i < |ns| ensures PieceValues(texts)[i] == want[i] {
      IntTextShape(ns[i]);
    }
  }

  /** A list of pieces without spaces whose last piece does not end in a comma is its own list text. */
  lemma ListTextOfInts(texts: seq<string>)
    requires |texts| >= 1 && texts[|texts| - 1] != [] && texts[|texts| - 1][|texts[|texts| - 1]| - 1] != ','
    requires forall i :: 0 <= i < |texts| ==> ' ' !in texts[i]
    ensures ListText(Join(texts, ',')) == Join(texts, ',')
  {
    JoinAvoids(texts, ',', ' ');
    JoinLast(texts, ',');
    RemoveAllAbsent(Join(texts, ','), ' ');
  }

  lemma {:induction false} RemoveAllAppend(a: string, b: string, c: char)
    ensures RemoveAll(a + b, c) == RemoveAll(a, c) + RemoveAll(b, c)
  {
    if a != [] {
      RemoveAllAppend(a[1..], b, c);
      assert (a + b)[1..] == a[1..] + b;
    } else {
      assert a + b == b;
    }
  }

  /** One trailing comma makes no difference. */
  lemma TrailingCommaIgnored(s: string)
    requires s != []
    requires var t := RemoveAll(s, ' '); !(t != [] && t[|t| - 1] == ',')
    ensures StringToArray(s + ",") == StringToArray(s)
  {
    TrailingCommaText(s);
  }

  lemma TrailingCommaText(s: string)
    requires var t := RemoveAll(s, ' '); !(t != [] && t[|t| - 1] == ',')
    ensures ListText(s + ",") == ListText(s)
  {
    RemoveAllAppend(s, ",", ' ');
    assert RemoveAll(",", ' ') == ",";
  }

  // ---------------------------------------------------------------------------
  // hexToRgb

  predicate IsHexDigit(c: char)
  {
    ('0' <= c <= '9') || ('a' <= c <= 'f') || ('A' <= c <= 'F')
  }

  function HexDigitValue(c: char): (v: nat)
    requires IsHexDigit(c)
    ensures v < 16
  {
    if '0' <= c <= '9' then c as int - '0' as int
    else if 'a' <= c <= 'f' then c as int - 'a' as int + 10
    else c as int - 'A' as int + 10
  }

  datatype Rgb = Rgb(r: nat, g: nat, b: nat)

  /** The text after an optional leading `#`. */
  function HexBody(hex: string): string
  {
    if hex != [] && hex[0] == '#' then hex[1..] else hex
  }

  /** What `/^#?([a-f\d]{2})([a-f\d]{2})([a-f\d]{2})$/i` accepts. */
  predicate IsHexColor(hex: string)
  {
    var d := HexBody(hex);
    |d| == 6 && forall i :: 0 <= i < 6 ==> IsHexDigit(d[i])
  }

  /** `parseInt(pair, 16)` of two hex digits. */
  function PairValue(d: string, i: nat): (v: nat)
    requires i + 1 < |d| && IsHexDigit(d[i]) && IsHexDigit(d[i + 1])
    ensures v <= 255
  {
    16 * HexDigitValue(d[i]) + HexDigitValue(d[i + 1])
  }

  /** `hexToRgb(hex)`: the three components of a six-digit colour, null for anything else. */
  function HexToRgb(hex: string): (r: Option<Rgb>)
    ensures r.Some? <==> IsHexColor(hex)
    ensures r.Some? ==> r.value.r <= 255 && r.value.g <= 255 && r.value.b <= 255
  {
    var d := HexBody(hex);
    if |d| == 6 && forall i :: 0 <= i < 6 ==> IsHexDigit(d[i]) then
      Some(Rgb(PairValue(d, 0), PairValue(d, 2), PairValue(d, 4)))
    else None
  }

  /** Lower-case hex digit of a value below 16. */
  function HexDigit(v: nat): (c: char)
    requires v < 16
    ensures IsHexDigit(c) && HexDigitValue(c) == v
  {
    if v < 10 then ('0' as int + v) as char else ('a' as int + v - 10) as char
  }

  /** Two hex digits of a component up to 255. */
  function ByteHex(v: nat): (s: string)
    requires v <= 255
    ensures |s| == 2 && IsHexDigit(s[0]) && IsHexDigit(s[1]) && PairValue(s, 0) == v
  {
    [HexDigit(v / 16), HexDigit(v % 16)]
  }

  /** Writing a colour as `#rrggbb`, or without the `#`, and reading it back gives the same colour. */
  lemma HexRoundTrip(c: Rgb)
    requires c.r <= 255 && c.g <= 255 && c.b <= 255
    ensures HexToRgb("#" + ByteHex(c.r) + ByteHex(c.g) + ByteHex(c.b)) == Some(c)
    ensures HexToRgb(ByteHex(c.r) + ByteHex(c.g) + ByteHex(c.b)) == Some(c)
  {
    var d := ByteHex(c.r) + ByteHex(c.g) + ByteHex(c.b);
    assert ("#" + d)[1..] == d;
    assert d[0..2] == ByteHex(c.r) && d[2..4] == ByteHex(c.g) && d[4..6] == ByteHex(c.b);
    assert PairValue(d, 0) == PairValue(ByteHex(c.r), 0);
    assert PairValue(d, 2) == PairValue(ByteHex(c.g), 0);
    assert PairValue(d, 4) == PairValue(ByteHex(c.b), 0);
  }

  /** ASCII upper-casing of a whole text. */
  function UpperText(s: string): (r: string)
    ensures |r| == |s| && forall i :: 0 <= i < |s| ==> r[i] == ToUpperAscii(s[i])
  {
    seq(|s|, i requires 0 <= i < |s| => ToUpperAscii(s[i]))
  }

  /** The `i` flag: upper-case digits read as the lower-case ones. */
  lemma HexIgnoresCase(hex: string)
    ensures HexToRgb(UpperText(hex)) == HexToRgb(hex)
  {
    var u := UpperText(hex);
    assert HexBody(u) == UpperText(HexBody(hex));
    var d, e := HexBody(hex), HexBody(u);
    forall i | 0 <= i < |d| ensures IsHexDigit(e[i]) == IsHexDigit(d[i]) && (IsHexDigit(d[i]) ==> HexDigitValue(e[i]) == HexDigitValue(d[i])) {
    }
  }

  // ---------------------------------------------------------------------------
  // kebabToCamelCase

  /** `replace(/_(.)/gi, w => w[1].toUpperCase())`: each `_` and the character after it become that character upper-cased. */
  function UpperAfterUnderscores(s: string): (r: string)
    ensures |r| <= |s|
    decreases |s|
  {
    if |s| >= 2 && s[0] == '_' && !IsLineTerminator(s[1]) then [ToUpperAscii(s[1])] + UpperAfterUnderscores(s[2..])
    else if s == [] then []
    else [s[0]] + UpperAfterUnderscores(s[1..])
  }

  /** A `\b` at position `p`: a word character on exactly one side. */
  predicate WordBoundary(s: string, p: nat)
    requires p <= |s|
  {
    (p > 0 && IsWordChar(s[p - 1])) != (p < |s| && IsWordChar(s[p]))
  }

  /** Where `/\b(.)/` matches first, from `from` on; `|s|` when it does not. */
  function FirstBoundaryChar(s: string, from: nat): (p: nat)
    requires from <= |s|
    ensures from <= p <= |s|
    ensures p < |s| ==> WordBoundary(s, p) && !IsLineTerminator(s[p])
    ensures forall q :: from <= q < p ==> !(WordBoundary(s, q) && !IsLineTerminator(s[q]))
    decreases |s| - from
  {
    if from == |s| then from
    else if WordBoundary(s, from) && !IsLineTerminator(s[from]) then from
    else FirstBoundaryChar(s, from + 1)
  }

  /** `replace(/\b(.)/i, w => lower ? w : w.toUpperCase())`: the first character after a word boundary upper-cased, unless `lower`. */
  function UpperFirstWord(s: string, lower: bool): (r: string)
    ensures |r| == |s|
    ensures lower ==> r == s
  {
    var p := FirstBoundaryChar(s, 0);
    if lower || p == |s| then s else s[..p] + [ToUpperAscii(s[p])] + s[p + 1..]
  }

  /** `kebabToCamelCase(text, lower)`. */
  function KebabToCamelCase(text: string, lower: bool): (r: string)
    ensures |r| <= |text|
    ensures lower ==> r == UpperAfterUnderscores(text)
  {
    UpperFirstWord(UpperAfterUnderscores(text), lower)
  }

  /** A word of an identifier: non-empty, word characters only, no underscore. */
  predicate IsIdentWord(w: string)
  {
    w != [] && forall j :: 0 <= j < |w| ==> IsWordChar(w[j]) && w[j] != '_'
  }

  function Capitalized(w: string): string
  {
    if w == [] then [] else [ToUpperAscii(w[0])] + w[1..]
  }

  function CapitalizedAll(ws: seq<string>): (r: seq<string>)
    ensures |r| == |ws| && forall i :: 0 <= i < |ws| ==> r[i] == Capitalized(ws[i])
  {
    seq(|ws|, i requires 0 <= i < |ws| => Capitalized(ws[i]))
  }

  lemma {:induction false} UpperAfterNoUnderscore(a: string, b: string)
    requires '_' !in a
    ensures UpperAfterUnderscores(a + b) == a + UpperAfterUnderscores(b)
    decreases |a|
  {
    if a != [] {
      assert '_' !in a[1..];
      UpperAfterNoUnderscore(a[1..], b);
      assert (a + b)[1..] == a[1..] + b;
    } else {
      assert a + b == b;
    }
  }

  /** Each `_` before a word upper-cases the word's first letter, and goes. */
  lemma {:induction false} UpperAfterJoin(words: seq<string>)
    requires |words| >= 1 && forall i :: 0 <= i < |words| ==> IsIdentWord(words[i])
    ensures UpperAfterUnderscores(Join(words, '_')) == words[0] + Concat(CapitalizedAll(words[1..]))
  {
    var w := words[0];
    assert '_' !in w by {
      assert IsIdentWord(words[0]);
    }
    if |words| == 1 {
      UpperAfterNoUnderscore(w, "");
      assert w + "" == w;
      assert CapitalizedAll(words[1..]) == [];
    } else {
      var rest := words[1..];
      var tail := Join(rest, '_');
      assert Join(words, '_') == w + ("_" + tail);
      UpperAfterNoUnderscore(w, "_" + tail);
      UpperAfterJoinRest(rest);
    }
  }

  /** `_` then a word: the word capitalised, then whatever follows. */
  lemma UpperAfterWord(v: string, after: string)
    requires IsIdentWord(v)
    ensures UpperAfterUnderscores("_" + v + after) == Capitalized(v) + UpperAfterUnderscores(after)
  {
    var u := "_" + v + after;
    assert u[0] == '_' && u[1] == v[0] && u[2..] == v[1..] + after;
    assert !IsLineTerminator(v[0]);
    assert '_' !in v[1..];
    UpperAfterNoUnderscore(v[1..], after);
  }

  /** After a `_`, every word comes out capitalised. */
  lemma {:induction false} UpperAfterJoinRest(rest: seq<string>)
    requires |rest| >= 1 && forall i :: 0 <= i < |rest| ==> IsIdentWord(rest[i])
    ensures UpperAfterUnderscores("_" + Join(rest, '_')) == Concat(CapitalizedAll(rest))
    decreases |rest|
  {
    var v := rest[0];
    assert IsIdentWord(v);
    if |rest| == 1 {
      UpperAfterLastWord(v);
      assert rest == [v];
    } else {
      var caps := CapitalizedAll(rest);
      assert caps[1..] == CapitalizedAll(rest[1..]);
      var after := "_" + Join(rest[1..], '_');
      assert "_" + Join(rest, '_') == "_" + v + after;
      UpperAfterWord(v, after);
      UpperAfterJoinRest(rest[1..]);
    }
  }

  lemma UpperAfterLastWord(v: string)
    requires IsIdentWord(v)
    ensures UpperAfterUnderscores("_" + Join([v], '_')) == Concat(CapitalizedAll([v]))
  {
    UpperAfterWord(v, "");
    assert "_" + v + "" == "_" + Join([v], '_');
    assert Concat(CapitalizedAll([v])) == Capitalized(v) + Concat([]);
  }

  /** A text starting with a word character gets that first character upper-cased, unless `lower`. */
  lemma UpperFirstAtStart(s: string, lower: bool)
    requires s != [] && IsWordChar(s[0])
    ensures UpperFirstWord(s, lower) == if lower then s else [ToUpperAscii(s[0])] + s[1..]
  {
    assert WordBoundary(s, 0);
    assert !IsLineTerminator(s[0]);
    assert FirstBoundaryChar(s, 0) == 0;
    assert s[..0] == [];
  }

  /** `snake_case` words become `camelCase`, with the first word capitalised too unless `lower`. */
  lemma KebabOfWords(words: seq<string>, lower: bool)
    requires |words| >= 1 && forall i :: 0 <= i < |words| ==> IsIdentWord(words[i])
    ensures KebabToCamelCase(Join(words, '_'), lower) ==
      (if lower then words[0] else Capitalized(words[0])) + Concat(CapitalizedAll(words[1..]))
  {
    UpperAfterJoin(words);
    var w, c := words[0], Concat(CapitalizedAll(words[1..]));
    assert IsIdentWord(w);
    CapitalizedAppend(w, c);
    UpperFirstAtStart(w + c, lower);
  }

  lemma CapitalizedAppend(w: string, c: string)
    requires w != []
    ensures (w + c)[0] == w[0]
    ensures Capitalized(w) + c == [ToUpperAscii(w[0])] + (w + c)[1..]
  {
    assert (w + c)[1..] == w[1..] + c;
  }

  // ---------------------------------------------------------------------------
  // getWrappedLines

  /** The words of a text and the space after each but the last: what the wrapping loop measures. */
  function Pieces(words: seq<string>): (r: seq<string>)
    ensures |r| == |words|
    ensures forall i :: 0 <= i < |words| ==> r[i] == if i == |words| - 1 then words[i] else words[i] + " "
  {
    seq(|words|, i requires 0 <= i < |words| => if i == |words| - 1 then words[i] else words[i] + " ")
  }

  lemma {:induction false} PiecesJoin(words: seq<string>)
    requires |words| >= 1
    ensures Concat(Pieces(words)) == Join(words, ' ')
  {
    if |words| > 1 {
      PiecesJoin(words[1..]);
      assert Pieces(words)[1..] == Pieces(words[1..]);
      assert words[0] + [' '] == words[0] + " ";
    }
  }

  /** The summed measured width of some pieces. */
  function SumWidths(ps: seq<string>, width: string -> real): real
  {
    if ps == [] then 0.0 else SumWidths(ps[..|ps| - 1], width) + width(ps[|ps| - 1])
  }

  /** One line: the non-empty run `ps[from..to]`, which fits and, unless it ends the text, would not fit with the next piece. */
  ghost predicate LineFits(ps: seq<string>, line: string, from: int, to: int, width: string -> real, contentsWidth: real)
  {
    0 <= from < to <= |ps| && line == Concat(ps[from..to]) && SumWidths(ps[from..to], width) <= contentsWidth &&
    (to < |ps| ==> SumWidths(ps[from..to + 1], width) > contentsWidth)
  }

  /** `lines` are the pieces cut at `cuts`, each line fitting as `LineFits` says. */
  ghost predicate Wrapped(ps: seq<string>, lines: seq<string>, cuts: seq<nat>, width: string -> real, contentsWidth: real)
  {
    |cuts| == |lines| + 1 && cuts[0] == 0 &&
    forall k :: 0 <= k < |lines| ==> LineFits(ps, lines[k], cuts[k], cuts[k + 1], width, contentsWidth)
  }

  lemma WrappedSnoc(ps: seq<string>, lines: seq<string>, cuts: seq<nat>, width: string -> real, contentsWidth: real, line: string, end: nat)
    requires Wrapped(ps, lines, cuts, width, contentsWidth)
    requires LineFits(ps, line, cuts[|lines|], end, width, contentsWidth)
    ensures Wrapped(ps, lines + [line], cuts + [end], width, contentsWidth)
  {
    var lines', cuts' := lines + [line], cuts + [end];
    forall k | 0 <= k < |lines'| ensures LineFits(ps, lines'[k], cuts'[k], cuts'[k + 1], width, contentsWidth) {
      if k < |lines| {
        assert lines'[k] == lines[k] && cuts'[k] == cuts[k] && cuts'[k + 1] == cuts[k + 1];
      }
    }
  }

  lemma SumWidthsSnoc(ps: seq<string>, i: nat, j: nat, width: string -> real)
    requires i <= j < |ps|
    ensures SumWidths(ps[i..j + 1], width) == SumWidths(ps[i..j], width) + width(ps[j])
    ensures Concat(ps[i..j + 1]) == Concat(ps[i..j]) + ps[j]
  {
    assert ps[i..j + 1][..j - i] == ps[i..j];
    assert ps[i..j + 1] == ps[i..j] + [ps[j]];
    ConcatSnoc(ps[i..j], ps[j]);
  }

  lemma ConcatSplitAt(ps: seq<string>, i: nat, j: nat)
    requires i <= j <= |ps|
    ensures Concat(ps[..i]) + Concat(ps[i..j]) == Concat(ps[..j])
  {
    ConcatAppend(ps[..i], ps[i..j]);
    assert ps[..i] + ps[i..j] == ps[..j];
  }

  /** The line being filled holds `ps[start..i]` and its summed width; `lines` hold the pieces before `start`. */
  ghost predicate Filling(ps: seq<string>, lines: seq<string>, cuts: seq<nat>, start: nat, i: nat, line: string, lineWidth: real, width: string -> real, contentsWidth: real)
  {
    start <= i < |ps| && Wrapped(ps, lines, cuts, width, contentsWidth) && cuts[|lines|] == start &&
    Concat(lines) == Concat(ps[..start]) && line == Concat(ps[start..i]) && lineWidth == SumWidths(ps[start..i], width) &&
    (start < i ==> lineWidth <= contentsWidth)
  }

  /** All pieces are on the lines. */
  ghost predicate Done(ps: seq<string>, lines: seq<string>, cuts: seq<nat>, width: string -> real, contentsWidth: real)
  {
    Wrapped(ps, lines, cuts, width, contentsWidth) && cuts[|lines|] == |ps| && Concat(lines) == Concat(ps)
  }

  /** The next piece does not fit: the line is flushed and a new one starts with nothing on it. */
  lemma WrapFlush(ps: seq<string>, lines: seq<string>, cuts: seq<nat>, start: nat, i: nat, line: string, lineWidth: real, width: string -> real, contentsWidth: real)
    requires Filling(ps, lines, cuts, start, i, line, lineWidth, width, contentsWidth)
    requires lineWidth + width(ps[i]) > contentsWidth && width(ps[i]) <= contentsWidth
    ensures Filling(ps, lines + [line], cuts + [i], i, i, "", 0.0, width, contentsWidth)
  {
    SumWidthsSnoc(ps, start, i, width);
    WrappedSnoc(ps, lines, cuts, width, contentsWidth, line, i);
    ConcatSplitAt(ps, start, i);
    ConcatSnoc(lines, line);
    assert ps[i..i] == [];
  }

  /** The next piece fits and is not the last: it joins the line. */
  lemma WrapAppend(ps: seq<string>, lines: seq<string>, cuts: seq<nat>, start: nat, i: nat, line: string, lineWidth: real, width: string -> real, contentsWidth: real)
    requires Filling(ps, lines, cuts, start, i, line, lineWidth, width, contentsWidth)
    requires lineWidth + width(ps[i]) <= contentsWidth && i + 1 < |ps|
    ensures Filling(ps, lines, cuts, start, i + 1, line + ps[i], lineWidth + width(ps[i]), width, contentsWidth)
  {
    SumWidthsSnoc(ps, start, i, width);
  }

  /** The last piece fits: it joins the line, which closes the text. */
  lemma WrapLast(ps: seq<string>, lines: seq<string>, cuts: seq<nat>, start: nat, i: nat, line: string, lineWidth: real, width: string -> real, contentsWidth: real)
    requires Filling(ps, lines, cuts, start, i, line, lineWidth, width, contentsWidth)
    requires lineWidth + width(ps[i]) <= contentsWidth && i + 1 == |ps|
    ensures Done(ps, lines + [line + ps[i]], cuts + [|ps|], width, contentsWidth)
  {
    SumWidthsSnoc(ps, start, i, width);
    WrappedSnoc(ps, lines, cuts, width, contentsWidth, line + ps[i], i + 1);
    ConcatSplitAt(ps, start, i + 1);
    ConcatSnoc(lines, line + ps[i]);
    assert ps[..i + 1] == ps;
  }

  /** The loop starts with no line and the first piece pending. */
  lemma WrapStart(ps: seq<string>, width: string -> real, contentsWidth: real)
    requires ps != []
    ensures Filling(ps, [], [0], 0, 0, "", 0.0, width, contentsWidth)
  {
    assert ps[..0] == [] && ps[0..0] == [];
  }

  /**
   * One turn of `getWrappedLines`'s loop on the next piece `ps[i]`: the line
   * is flushed when the piece would overflow it, otherwise the piece joins
   * it, and the last piece closes the text.
   */
  method WrapTurn(ps: seq<string>, lines: seq<string>, ghost cuts: seq<nat>, ghost start: nat, i: nat, line: string, lineWidth: real, width: string -> real, contentsWidth: real)
      returns (lines': seq<string>, ghost cuts': seq<nat>, ghost start': nat, i': nat, line': string, lineWidth': real)
    requires Filling(ps, lines, cuts, start, i, line, lineWidth, width, contentsWidth) && width(ps[i]) <= contentsWidth
    ensures i' < |ps| ==> Filling(ps, lines', cuts', start', i', line', lineWidth', width, contentsWidth)
    ensures i' >= |ps| ==> i' == |ps| && Done(ps, lines', cuts', width, contentsWidth)
    ensures i' > i || (i' == i && start' > start)
  {
    var word := ps[i];
    if lineWidth + width(word) > contentsWidth {
      WrapFlush(ps, lines, cuts, start, i, line, lineWidth, width, contentsWidth);
      return lines + [line], cuts + [i], i, i, "", 0.0;
    }
    if i == |ps| - 1 {
      WrapLast(ps, lines, cuts, start, i, line, lineWidth, width, contentsWidth);
      return lines + [line + word], cuts + [i + 1], start, i + 1, line, lineWidth;
    }
    WrapAppend(ps, lines, cuts, start, i, line, lineWidth, width, contentsWidth);
    return lines, cuts, start, i + 1, line + word, lineWidth + width(word);
  }

  /**
   * `getWrappedLines(text, window)`: splits the text at spaces and fills
   * lines greedily, a line being flushed as soon as the next word would make
   * its summed width exceed `contentsWidth`. `width` is the window's text
   * measure. When a word alone is too wide the loop never ends, so every word
   * must fit.
   */
  method GetWrappedLines(text: string, width: string -> real, contentsWidth: real) returns (lines: seq<string>, ghost cuts: seq<nat>)
    requires forall i :: 0 <= i < |Split(text, ' ')| ==> width(Pieces(Split(text, ' '))[i]) <= contentsWidth
    ensures Concat(lines) == text
    ensures Wrapped(Pieces(Split(text, ' ')), lines, cuts, width, contentsWidth) && cuts[|lines|] == |Split(text, ' ')|
  {
    var words := Split(text, ' ');
    var ps := Pieces(words);
    lines := [];
    cuts := [0];
    var line := "";
    var lineWidth := 0.0;
    ghost var start: nat := 0;
    var i: nat := 0;
    WrapStart(ps, width, contentsWidth);
    while i < |ps|
      invariant i <= |ps|
      invariant i < |ps| ==> Filling(ps, lines, cuts, start, i, line, lineWidth, width, contentsWidth)
      invariant i == |ps| ==> Done(ps, lines, cuts, width, contentsWidth)
      decreases |ps| - i, i - start
    {
      lines, cuts, start, i, line, lineWidth := WrapTurn(ps, lines, cuts, start, i, line, lineWidth, width, contentsWidth);
    }
    PiecesJoin(words);
    JoinSplit(text, ' ');
  }

  // ---------------------------------------------------------------------------
  // getComments

  /** An event command; comments are code 108 (first line) and 408 (continuation). */
  datatype Command = Command(code: int, parameters: seq<string>)

  datatype Page = Page(list: seq<Command>)

  datatype EventData = EventData(pages: seq<Page>)

  /** What `getComments` is given: a map event, read through its data, or the data itself. */
  datatype EventObject = GameEvent(event: EventData) | Data(data: EventData)

  predicate IsComment(c: Command)
  {
    c.code == 108 || c.code == 408
  }

  /** What one command adds: its parameters on separate lines, and a final line break. */
  function CommandComment(c: Command): string
  {
    if IsComment(c) then Join(c.parameters, '\n') + "\n" else ""
  }

  function ListComment(list: seq<Command>): string
  {
    if list == [] then "" else ListComment(list[..|list| - 1]) + CommandComment(list[|list| - 1])
  }

  lemma ListCommentStep(list: seq<Command>, j: nat)
    requires j < |list|
    ensures ListComment(list[..j + 1]) == ListComment(list[..j]) + CommandComment(list[j])
  {
    assert list[..j + 1][..j] == list[..j];
  }

  lemma AppendAssoc(a: string, b: string, c: string)
    ensures (a + b) + c == a + (b + c)
  {
  }

  function PagesComment(pages: seq<Page>): string
  {
    if pages == [] then "" else PagesComment(pages[..|pages| - 1]) + ListComment(pages[|pages| - 1].list)
  }

  function DataOf(obj: EventObject): EventData
  {
    match obj
    case GameEvent(event) => event
    case Data(data) => data
  }

  /** `getComments(eventObject)`: the comment commands of every page, in order. */
  method GetComments(obj: EventObject) returns (comment: string)
    ensures comment == PagesComment(DataOf(obj).pages)
  {
    var pages := DataOf(obj).pages;
    comment := "";
    for p := 0 to |pages|
      invariant comment == PagesComment(pages[..p])
    {
      comment := AppendListComment(comment, pages[p].list);
      assert pages[..p + 1][..p] == pages[..p];
    }
    assert pages[..|pages|] == pages;
  }

  /** The inner loop of `getComments`: one page's comment commands appended to `comment`. */
  method AppendListComment(comment: string, list: seq<Command>) returns (r: string)
    ensures r == comment + ListComment(list)
  {
    r := comment;
    for j := 0 to |list|
      invariant r == comment + ListComment(list[..j])
    {
      ghost var before := r;
      if list[j].code == 108 || list[j].code == 408 {
        r := r + Join(list[j].parameters, '\n') + "\n";
      }
      assert r == before + CommandComment(list[j]);
      ListCommentStep(list, j);
      AppendAssoc(comment, ListComment(list[..j]), CommandComment(list[j]));
    }
    assert list[..|list|] == list;
  }

  /** A list's comment text is empty exactly when it has no comment command, and otherwise ends a line. */
  lemma {:induction false} ListCommentShape(list: seq<Command>)
    ensures ListComment(list) == "" <==> forall i :: 0 <= i < |list| ==> !IsComment(list[i])
    ensures ListComment(list) != "" ==> ListComment(list)[|ListComment(list)| - 1] == '\n'
  {
    if list != [] {
      var init := list[..|list| - 1];
      ListCommentShape(init);
      forall i | 0 <= i < |init| ensures init[i] == list[i] {
      }
    }
  }

  /** The comment of an event is empty exactly when none of its pages has a comment command, and otherwise ends a line. */
  lemma PagesCommentShape(pages: seq<Page>)
    ensures PagesComment(pages) == "" <==> forall p, i :: 0 <= p < |pages| && 0 <= i < |pages[p].list| ==> !IsComment(pages[p].list[i])
    ensures PagesComment(pages) != "" ==> PagesComment(pages)[|PagesComment(pages)| - 1] == '\n'
  {
    PagesCommentEmpty(pages);
    PagesCommentEnds(pages);
  }

  lemma {:induction false} PagesCommentEmpty(pages: seq<Page>)
    ensures PagesComment(pages) == "" <==> forall p, i :: 0 <= p < |pages| && 0 <= i < |pages[p].list| ==> !IsComment(pages[p].list[i])
  {
    if pages != [] {
      var init, last := pages[..|pages| - 1], pages[|pages| - 1];
      PagesCommentEmpty(init);
      ListCommentShape(last.list);
      assert PagesComment(pages) == PagesComment(init) + ListComment(last.list);
      forall p | 0 <= p < |init| ensures init[p] == pages[p] {
      }
    }
  }

  lemma {:induction false} PagesCommentEnds(pages: seq<Page>)
    ensures PagesComment(pages) != "" ==> PagesComment(pages)[|PagesComment(pages)| - 1] == '\n'
  {
    if pages != [] {
      var init, last := pages[..|pages| - 1], pages[|pages| - 1];
      PagesCommentEnds(init);
      ListCommentShape(last.list);
      assert PagesComment(pages) == PagesComment(init) + ListComment(last.list);
    }
  }

  /** A comment command whose lines hold no line break gives back exactly those lines. */
  lemma CommentLines(c: Command)
    requires IsComment(c) && |c.parameters| >= 1
    requires forall i :: 0 <= i < |c.parameters| ==> '\n' !in c.parameters[i]
    ensures Split(CommandComment(c), '\n') == c.parameters + [""]
  {
    var ps := c.parameters + [""];
    assert ps[..|ps| - 1] == c.parameters;
    JoinAppendEmpty(c.parameters, '\n');
    SplitJoin(ps, '\n');
  }

  lemma {:induction false} JoinAppendEmpty(parts: seq<string>, sep: char)
    requires |parts| >= 1
    ensures Join(parts + [""], sep) == Join(parts, sep) + [sep]
  {
    if |parts| == 1 {
      assert (parts + [""])[1..] == [""];
    } else {
      JoinAppendEmpty(parts[1..], sep);
      assert (parts + [""])[1..] == parts[1..] + [""];
    }
  }
}
