/**
 * The rewrite a note goes through before the Urd parser sees it: a line that
 * starts (after whitespace) with `word+:` or `word%:` becomes `wordPlus:` or
 * `wordRate:`, and `name(arg)+:` becomes `namePlus(arg):`. The rewrite is the
 * global, multiline, case-insensitive replacement of `^\s*\b(\S+)([\+\%])\:`,
 * scanned here position by position as the regular expression engine does.
 */
module TagNotes {
  import opened Wrappers
  import opened Strings

  /** A `+:` or `%:` marker at index `t`. */
  predicate OperatorAt(s: string, t: int)
  {
    0 <= t && t + 1 < |s| && (s[t] == '+' || s[t] == '%') && s[t + 1] == ':'
  }

  /** Length of the run of non-whitespace characters at the start of `s`. */
  function NonSpace(s: string): (n: nat)
    ensures n <= |s|
    ensures forall i :: 0 <= i < n ==> !IsWhitespace(s[i])
    ensures n < |s| ==> IsWhitespace(s[n])
  {
    if s != [] && !IsWhitespace(s[0]) then 1 + NonSpace(s[1..]) else 0
  }

  /** The largest marker index in [1, t]: where greedy `\S+` stops backtracking. */
  function LastOperator(run: string, t: nat): (r: Option<nat>)
    ensures r.Some? ==> 1 <= r.value <= t && OperatorAt(run, r.value)
    ensures r.Some? ==> forall u :: r.value < u <= t ==> !OperatorAt(run, u)
    ensures r.None? ==> forall u :: 1 <= u <= t ==> !OperatorAt(run, u)
  {
    if t == 0 then None
    else if OperatorAt(run, t) then Some(t)
    else LastOperator(run, t - 1)
  }

  /** A match of the pattern at a line start: its length, the captured word and the operator. */
  datatype Marker = Marker(len: nat, word: string, op: char)

  /** The match of `\s*\b(\S+)([\+\%])\:` at the start of `s`, if any. */
  function MatchAt(s: string): (r: Option<Marker>)
    ensures r.Some? ==> 3 <= r.value.len <= |s| && OperatorAt(s, r.value.len - 2)
    ensures r.Some? ==> r.value.op == s[r.value.len - 2]
  {
    var q := LeadingSpace(s);
    if q == |s| || !IsWordChar(s[q]) then None
    else
      var run := s[q..][..NonSpace(s[q..])];
      if |run| < 3 then None
      else
        match LastOperator(run, |run| - 2)
        case None => None
        case Some(t) =>
          assert s[q + t] == run[t] && s[q + t + 1] == run[t + 1];
          Some(Marker(q + t + 2, run[..t], run[t]))
  }

  /** The last index below `n` holding `c`. */
  function LastBefore(s: string, c: char, n: nat): (r: Option<nat>)
    requires n <= |s|
    ensures r.Some? ==> r.value < n && s[r.value] == c && forall i :: r.value < i < n ==> s[i] != c
    ensures r.None? ==> forall i :: 0 <= i < n ==> s[i] != c
  {
    if n == 0 then None
    else if s[n - 1] == c then Some(n - 1)
    else LastBefore(s, c, n - 1)
  }

  /**
   * The groups of `(.+)\((.+)\)` on a word: the opening parenthesis is the last
   * one with at least one character before it and at least one character before
   * the last closing parenthesis.
   */
  function Parens(word: string): (r: Option<(nat, nat)>)
    ensures r.Some? ==> 1 <= r.value.0 && r.value.0 + 2 <= r.value.1 < |word|
    ensures r.Some? ==> word[r.value.0] == '(' && word[r.value.1] == ')'
  {
    match LastBefore(word, ')', |word|)
    case None => None
    case Some(k) =>
      if k < 3 then None
      else
        match LastBefore(word, '(', k - 1)
        case None => None
        case Some(j) => if j == 0 then None else Some((j, k))
  }

  /** The replacement text for a match. */
  function Replacement(word: string, op: char): string
  {
    var suffix := if op == '+' then "Plus" else "Rate";
    match Parens(word)
    case Some((j, k)) => word[..j] + suffix + "(" + word[j + 1..k] + "):"
    case None => word + suffix + ":"
  }

  /** The rewrite of `s`; `lineStart` says whether `s` begins at the start of a line. */
  function Scan(s: string, lineStart: bool): string
    decreases |s|, 1
  {
    if s == [] then []
    else if lineStart then ScanLineStart(s)
    else [s[0]] + Scan(s[1..], IsLineTerminator(s[0]))
  }

  /** At a line start the pattern is tried; without a match the scan moves one character on. */
  function ScanLineStart(s: string): string
    requires s != []
    decreases |s|, 0
  {
    match MatchAt(s)
    case Some(mk) => Replacement(mk.word, mk.op) + Scan(s[mk.len..], false)
    case None => [s[0]] + Scan(s[1..], IsLineTerminator(s[0]))
  }

  /** `noteToValidUrdText`. */
  function NoteToValidUrdText(note: string): (r: string)
    ensures (forall t :: !OperatorAt(note, t)) ==> r == note
  {
    NoOperatorUnchanged(note, true);
    Scan(note, true)
  }

  /** A note with no `+:` or `%:` is left as it is. */
  lemma {:induction false} NoOperatorUnchanged(s: string, lineStart: bool)
    ensures (forall t :: !OperatorAt(s, t)) ==> Scan(s, lineStart) == s
    decreases |s|
  {
    if s != [] && forall t :: !OperatorAt(s, t) {
      assert MatchAt(s).None?;
      forall t ensures !OperatorAt(s[1..], t) {
        assert OperatorAt(s[1..], t) ==> OperatorAt(s, t + 1);
      }
      NoOperatorUnchanged(s[1..], IsLineTerminator(s[0]));
      assert [s[0]] + s[1..] == s;
    }
  }

  lemma ScanStep(s: string)
    requires s != []
    ensures Scan(s, false) == [s[0]] + Scan(s[1..], IsLineTerminator(s[0]))
  {
  }

  /** Away from a line start, nothing is rewritten before the next line terminator. */
  lemma {:induction false} ScanWithinLine(line: string, rest: string)
    requires forall i :: 0 <= i < |line| ==> !IsLineTerminator(line[i])
    ensures Scan(line + rest, false) == line + Scan(rest, false)
    decreases |line|
  {
    if line == [] {
      assert line + rest == rest;
    } else {
      var s := line + rest;
      assert s[0] == line[0] && !IsLineTerminator(s[0]);
      assert s[1..] == line[1..] + rest;
      ScanStep(s);
      ScanWithinLine(line[1..], rest);
      assert [line[0]] + line[1..] == line;
      assert Scan(s, false) == [line[0]] + (line[1..] + Scan(rest, false));
    }
  }

  /** After a line terminator the next line is scanned from its start. */
  lemma NextLine(line: string, c: char, rest: string)
    requires forall i :: 0 <= i < |line| ==> !IsLineTerminator(line[i])
    requires IsLineTerminator(c)
    ensures Scan(line + ([c] + rest), false) == line + ([c] + Scan(rest, true))
  {
    ScanWithinLine(line, [c] + rest);
    ScanStep([c] + rest);
    assert ([c] + rest)[1..] == rest;
  }

  /** The match found on a line `ws word op ':' rest`. */
  lemma MatchOnLine(ws: string, word: string, op: char, rest: string)
    requires forall i :: 0 <= i < |ws| ==> IsWhitespace(ws[i])
    requires word != [] && IsWordChar(word[0]) && forall i :: 0 <= i < |word| ==> !IsWhitespace(word[i])
    requires op == '+' || op == '%'
    requires rest == [] || IsWhitespace(rest[0])
    ensures MatchAt(ws + word + [op, ':'] + rest) == Some(Marker(|ws| + |word| + 2, word, op))
  {
    var s := ws + word + [op, ':'] + rest;
    var q := |ws|;
    LeadingSpaceIs(ws, word + [op, ':'] + rest);
    assert s == ws + (word + [op, ':'] + rest);
    assert LeadingSpace(s) == q;
    var body := word + [op, ':'];
    assert s[q..] == body + rest;
    NonSpaceIs(body, rest);
    var run := s[q..][..NonSpace(s[q..])];
    assert run == body;
    assert OperatorAt(run, |run| - 2);
  }

  lemma {:induction false} LeadingSpaceIs(ws: string, t: string)
    requires forall i :: 0 <= i < |ws| ==> IsWhitespace(ws[i])
    requires t != [] && !IsWhitespace(t[0])
    ensures LeadingSpace(ws + t) == |ws|
    decreases |ws|
  {
    if ws == [] {
      assert ws + t == t;
    } else {
      assert (ws + t)[1..] == ws[1..] + t;
      LeadingSpaceIs(ws[1..], t);
    }
  }

  lemma {:induction false} NonSpaceIs(body: string, rest: string)
    requires forall i :: 0 <= i < |body| ==> !IsWhitespace(body[i])
    requires rest == [] || IsWhitespace(rest[0])
    ensures NonSpace(body + rest) == |body|
    decreases |body|
  {
    if body == [] {
      assert body + rest == rest;
    } else {
      assert (body + rest)[1..] == body[1..] + rest;
      NonSpaceIs(body[1..], rest);
    }
  }

  /**
   * A line starting with `word+:` or `word%:`, after any whitespace, loses that
   * whitespace and has the marker replaced; the rest of the line is kept.
   */
  lemma RewriteLine(ws: string, word: string, op: char, rest: string)
    requires forall i :: 0 <= i < |ws| ==> IsWhitespace(ws[i])
    requires word != [] && IsWordChar(word[0]) && forall i :: 0 <= i < |word| ==> !IsWhitespace(word[i])
    requires op == '+' || op == '%'
    requires rest == [] || IsWhitespace(rest[0])
    ensures Scan(ws + word + [op, ':'] + rest, true) == Replacement(word, op) + Scan(rest, false)
  {
    MatchOnLine(ws, word, op, rest);
    var s := ws + word + [op, ':'] + rest;
    assert s[|ws| + |word| + 2..] == rest;
  }

  /** `name+:` becomes `namePlus:` and `name%:` becomes `nameRate:` when the name has no parentheses. */
  lemma ReplacementPlain(word: string, op: char)
    requires '(' !in word
    ensures Replacement(word, op) == word + (if op == '+' then "Plus" else "Rate") + ":"
  {
    assert forall i :: 0 <= i < |word| ==> word[i] != '(';
  }

  /** `name(key)+:` becomes `namePlus(key):`. */
  lemma ReplacementParens(name: string, key: string, op: char)
    requires name != [] && key != []
    requires ')' !in name && ')' !in key && '(' !in key
    ensures Replacement(name + "(" + key + ")", op) ==
      name + (if op == '+' then "Plus" else "Rate") + "(" + key + "):"
  {
    var word := name + "(" + key + ")";
    var k := |word| - 1;
    var j := |name|;
    assert word[k] == ')';
    assert word[j] == '(';
    assert forall i :: j < i < k - 1 ==> word[i] == key[i - j - 1];
    assert LastBefore(word, ')', |word|) == Some(k);
    assert LastBefore(word, '(', k - 1) == Some(j);
    assert word[..j] == name && word[j + 1..k] == key;
  }

  /** A whole one-line note with a marker: the leading whitespace goes, the marker is replaced, the rest is kept. */
  lemma RewriteOneLineNote(ws: string, word: string, op: char, rest: string)
    requires forall i :: 0 <= i < |ws| ==> IsWhitespace(ws[i])
    requires word != [] && IsWordChar(word[0]) && forall i :: 0 <= i < |word| ==> !IsWhitespace(word[i])
    requires op == '+' || op == '%'
    requires rest == [] || IsWhitespace(rest[0])
    requires forall i :: 0 <= i < |rest| ==> !IsLineTerminator(rest[i])
    ensures NoteToValidUrdText(ws + word + [op, ':'] + rest) == Replacement(word, op) + rest
  {
    RewriteLine(ws, word, op, rest);
    ScanWithinLine(rest, "");
    assert rest + "" == rest;
  }

  /** `nbr+: 65`, with leading spaces, becomes `nbrPlus: 65`. */
  lemma ExamplePlus(note: string)
    requires note == "  nbr+: 65"
    ensures NoteToValidUrdText(note) == "nbrPlus: 65"
  {
    assert note == "  " + "nbr" + ['+', ':'] + " 65";
    RewriteOneLineNote("  ", "nbr", '+', " 65");
    ReplacementPlain("nbr", '+');
  }

  /** `nbr%: 200` becomes `nbrRate: 200`. */
  lemma ExampleRate(note: string)
    requires note == "nbr%: 200"
    ensures NoteToValidUrdText(note) == "nbrRate: 200"
  {
    assert note == "" + "nbr" + ['%', ':'] + " 200";
    RewriteOneLineNote("", "nbr", '%', " 200");
    ReplacementPlain("nbr", '%');
  }

  /** `obj(a)+: 100` becomes `objPlus(a): 100`. */
  lemma ExampleParens(note: string)
    requires note == "obj(a)+: 100"
    ensures NoteToValidUrdText(note) == "objPlus(a): 100"
  {
    var word := "obj" + "(" + "a" + ")";
    assert note == "" + word + ['+', ':'] + " 100";
    RewriteOneLineNote("", word, '+', " 100");
    ReplacementParens("obj", "a", '+');
  }

}
