/** `_strip_trailing_commas`: a string-state lexer that drops commas before a closing bracket. */
module TrailingCommas {
  // ---- The lexer -----------------------------------------------------------

  datatype Lex = Outside | Inside | Escaped

  function Step(l: Lex, c: char): Lex {
    match l
    case Outside => if c == '\"' then Inside else Outside
    case Inside => if c == '\\' then Escaped else if c == '\"' then Outside else Inside
    case Escaped => Inside
  }

  /** The two flags the function keeps. */
  function Flags(inString: bool, escaped: bool): Lex {
    if !inString then Outside else if escaped then Escaped else Inside
  }

  /** The lexer's state after a text. */
  function Scan(l: Lex, s: string): Lex
    decreases |s|
  {
    if s == [] then l else Scan(Step(l, s[0]), s[1..])
  }

  /** What `str.lstrip()` strips. */
  predicate Blank(c: char) {
    var n := c as int;
    || 0x09 <= n <= 0x0D || 0x1C <= n <= 0x20 || n == 0x85 || n == 0xA0 || n == 0x1680
    || 0x2000 <= n <= 0x200A || n == 0x2028 || n == 0x2029 || n == 0x202F || n == 0x205F || n == 0x3000
  }

  /** Python's whitespace: 29 characters. */
  lemma BlankIsPythonSpace(c: char)
    ensures Blank(c) <==>
            c in "\t\n\U{0B}\U{0C}\r\U{1C}\U{1D}\U{1E}\U{1F} \U{85}\U{A0}\U{1680}\U{2000}\U{2001}\U{2002}\U{2003}"
            || c in "\U{2004}\U{2005}\U{2006}\U{2007}\U{2008}\U{2009}\U{200A}\U{2028}\U{2029}\U{202F}\U{205F}\U{3000}"
  {}

  function SkipBlanks(s: string): (r: string)
    ensures r != [] ==> !Blank(r[0])
  {
    if s != [] && Blank(s[0]) then SkipBlanks(s[1..]) else s
  }

  predicate Closer(c: char) { c == '}' || c == ']' }

  /** The next character that is not blank closes a container. */
  predicate Closes(s: string) { SkipBlanks(s) != [] && Closer(SkipBlanks(s)[0]) }

  /** The text from a state of the lexer on, without the commas to drop. */
  function Strip(l: Lex, s: string): (r: string)
    ensures |r| <= |s|
    decreases |s|
  {
    if s == [] then []
    else if l.Outside? && s[0] == ',' && Closes(s[1..]) then Strip(l, s[1..])
    else [s[0]] + Strip(Step(l, s[0]), s[1..])
  }

  function StripTrailingCommas(text: string): string { Strip(Outside, text) }

  lemma StripNext(out: string, l: Lex, text: string, i: nat)
    requires i < |text|
    ensures var rest := text[i + 1..];
      out + Strip(l, text[i..]) ==
        if l.Outside? && text[i] == ',' && Closes(rest) then out + Strip(l, rest)
        else (out + [text[i]]) + Strip(Step(l, text[i]), rest)
  {
    assert text[i..][1..] == text[i + 1..];
    var after := Strip(Step(l, text[i]), text[i + 1..]);
    assert out + ([text[i]] + after) == (out + [text[i]]) + after;
  }

  /** The loop of `_strip_trailing_commas`. */
  method Repair(text: string) returns (out: string)
    ensures out == StripTrailingCommas(text)
  {
    out := [];
    var inString, escaped := false, false;
    for i := 0 to |text|
      invariant inString || !escaped
      invariant StripTrailingCommas(text) == out + Strip(Flags(inString, escaped), text[i..])
    {
      var ch := text[i];
      StripNext(out, Flags(inString, escaped), text, i);
      if inString {
        if escaped { escaped := false; }
        else if ch == '\\' { escaped := true; }
        else if ch == '\"' { inString := false; }
        out := out + [ch];
      } else if ch == '\"' {
        inString := true;
        out := out + [ch];
      } else if ch != ',' || !Closes(text[i + 1..]) {
        out := out + [ch];
      }
    }
  }

  // ---- Which commas go -----------------------------------------------------

  /** A comma outside strings whose next character that is not blank closes a container. */
  predicate Dropped(text: string, i: nat)
    requires i < |text|
  {
    Scan(Outside, text[..i]).Outside? && text[i] == ',' && Closes(text[i + 1..])
  }

  /** The positions from i on that stay. */
  function Kept(text: string, i: nat): seq<nat>
    requires i <= |text|
    decreases |text| - i
  {
    if i == |text| then [] else (if Dropped(text, i) then [] else [i]) + Kept(text, i + 1)
  }

  function Select(text: string, at: seq<nat>): string
    requires forall k :: 0 <= k < |at| ==> at[k] < |text|
  {
    if at == [] then [] else [text[at[0]]] + Select(text, at[1..])
  }

  /** Kept lists every position that stays, in order and once. */
  lemma {:induction false} KeptIsExact(text: string, i: nat)
    requires i <= |text|
    ensures forall k :: 0 <= k < |Kept(text, i)| ==> i <= Kept(text, i)[k] < |text|
    ensures forall k, m :: 0 <= k < m < |Kept(text, i)| ==> Kept(text, i)[k] < Kept(text, i)[m]
    ensures forall k: nat :: i <= k < |text| ==> (k in Kept(text, i) <==> !Dropped(text, k))
    decreases |text| - i
  {
    if i < |text| { KeptIsExact(text, i + 1); }
  }

  lemma {:induction false} ScanAppend(l: Lex, s: string, c: char)
    ensures Scan(l, s + [c]) == Step(Scan(l, s), c)
    decreases |s|
  {
    if s == [] {
      assert Scan(Step(l, c), []) == Step(l, c);
    } else {
      assert (s + [c])[1..] == s[1..] + [c];
      ScanAppend(Step(l, s[0]), s[1..], c);
    }
  }

  lemma {:induction false} StripFrom(text: string, i: nat)
    requires i <= |text|
    requires forall k :: 0 <= k < |Kept(text, i)| ==> Kept(text, i)[k] < |text|
    ensures Strip(Scan(Outside, text[..i]), text[i..]) == Select(text, Kept(text, i))
    decreases |text| - i
  {
    if i < |text| {
      assert text[..i] + [text[i]] == text[..i + 1];
      ScanAppend(Outside, text[..i], text[i]);
      assert text[i..][1..] == text[i + 1..];
      KeptIsExact(text, i + 1);
      StripFrom(text, i + 1);
      if Dropped(text, i) {
        assert [] + Kept(text, i + 1) == Kept(text, i + 1);
      } else {
        assert ([i] + Kept(text, i + 1))[1..] == Kept(text, i + 1);
      }
    }
  }

  /** The output is the input without exactly the dropped commas. */
  lemma OutputDropsExactlyThose(text: string)
    ensures KeptInRange(text)
    ensures StripTrailingCommas(text) == Select(text, Kept(text, 0))
  {
    KeptIsExact(text, 0);
    StripFrom(text, 0);
    assert text[..0] == [] && text[0..] == text;
  }

  predicate KeptInRange(text: string) {
    forall k :: 0 <= k < |Kept(text, 0)| ==> Kept(text, 0)[k] < |text|
  }

  // ---- What stays the same -------------------------------------------------

  /** The characters inside string literals, quotes included. */
  function Quoted(l: Lex, s: string): string
    decreases |s|
  {
    if s == [] then []
    else (if !l.Outside? || s[0] == '\"' then [s[0]] else []) + Quoted(Step(l, s[0]), s[1..])
  }

  /** Whatever the text, the lexer ends in the same state, and every string literal is as it was. */
  lemma {:induction false} StringsSurvive(l: Lex, s: string)
    ensures Scan(l, Strip(l, s)) == Scan(l, s)
    ensures Quoted(l, Strip(l, s)) == Quoted(l, s)
    decreases |s|
  {
    if s != [] {
      var dropped := l.Outside? && s[0] == ',' && Closes(s[1..]);
      if dropped {
        StringsSurvive(l, s[1..]);
        assert Step(l, s[0]) == l;
      } else {
        StringsSurvive(Step(l, s[0]), s[1..]);
        assert ([s[0]] + Strip(Step(l, s[0]), s[1..]))[1..] == Strip(Step(l, s[0]), s[1..]);
      }
    }
  }

  // ---- Twice ---------------------------------------------------------------

  /** The next character that is not blank is a comma to drop. */
  predicate BeforeDropped(s: string) {
    var r := SkipBlanks(s);
    r != [] && r[0] == ',' && Closes(r[1..])
  }

  /** Some comma outside strings is followed, blanks aside, by a comma to drop. */
  predicate Stacked(l: Lex, s: string)
    decreases |s|
  {
    s != [] && ((l.Outside? && s[0] == ',' && BeforeDropped(s[1..])) || Stacked(Step(l, s[0]), s[1..]))
  }

  lemma {:induction false} ClosesAfterStrip(l: Lex, s: string)
    requires l.Outside?
    ensures Closes(Strip(l, s)) <==> Closes(s) || BeforeDropped(s)
    decreases |s|
  {
    if s != [] {
      if s[0] == ',' && Closes(s[1..]) {
        ClosesAfterStrip(l, s[1..]);
      } else {
        var rest := Strip(Step(l, s[0]), s[1..]);
        assert ([s[0]] + rest)[1..] == rest;
        if Blank(s[0]) { ClosesAfterStrip(Step(l, s[0]), s[1..]); }
      }
    }
  }

  lemma {:induction false} TwiceFrom(l: Lex, s: string)
    ensures Strip(l, Strip(l, s)) == Strip(l, s) <==> !Stacked(l, s)
    decreases |s|
  {
    if s != [] {
      if l.Outside? && s[0] == ',' && Closes(s[1..]) {
        TwiceFrom(l, s[1..]);
      } else {
        var next, rest := Step(l, s[0]), Strip(Step(l, s[0]), s[1..]);
        assert Strip(l, s) == [s[0]] + rest && ([s[0]] + rest)[1..] == rest;
        TwiceFrom(next, s[1..]);
        if l.Outside? && s[0] == ',' {
          ClosesAfterStrip(next, s[1..]);
        }
      }
    }
  }

  /** Repairing twice is repairing once, exactly for texts without a comma stacked on a dropped one. */
  lemma RepairedTwice(text: string)
    ensures StripTrailingCommas(StripTrailingCommas(text)) == StripTrailingCommas(text) <==> !Stacked(Outside, text)
  {
    TwiceFrom(Outside, text);
  }

  /** Two commas before a closer take two repairs. */
  lemma TwoCommasTakeTwoRepairs()
    ensures StripTrailingCommas("[1,,]") == "[1,]"
    ensures StripTrailingCommas("[1,]") == "[1]"
    ensures Stacked(Outside, "[1,,]")
  {
    assert "[1,,]"[1..] == "1,,]" && "1,,]"[1..] == ",,]" && ",,]"[1..] == ",]" && ",]"[1..] == "]" && "]"[1..] == "";
    assert "[1,]"[1..] == "1,]" && "1,]"[1..] == ",]";
    assert SkipBlanks(",]") == ",]" && SkipBlanks("]") == "]";
    assert Strip(Outside, "") == "" && Strip(Outside, "]") == "]" && Strip(Outside, ",]") == "]";
    assert Strip(Outside, ",,]") == ",]";
    assert Strip(Outside, "1,,]") == "1,]" && Strip(Outside, "1,]") == "1]";
    assert Stacked(Outside, ",,]") && Stacked(Outside, "1,,]");
  }
}
