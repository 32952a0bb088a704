/**
  JSON texts with arbitrary whitespace, in which the last entry of any array or object may be
  followed by a comma; what the comma repair makes of them. The texts without such commas follow
  the grammar of RFC 8259, sections 2, 4, 5 and 7; scalars are any texts free of the characters that
  have a role in that grammar, which includes its numbers and literal names.
 */
module JsonText {
  import opened Wrappers
  import opened TrailingCommas

  // ---- Concrete syntax -----------------------------------------------------

  /** A character of a string literal, or a backslash and the character it escapes. */
  datatype Char = Plain(c: char) | Escape(c: char)

  datatype Kind = Array | Object

  datatype Value =
    | Scalar(text: string)
    | Text(chars: seq<Char>)
    | Container(kind: Kind, pad: string, body: Body)

  /** The entries of a container; keys are used in objects. */
  datatype Body =
    | Nothing
    | Entry(key: Key, value: Value, pad: string, rest: Rest)

  datatype Rest =
    | Last
    | Trailing(pad: string)             // a comma, whitespace, then the closer
    | Next(pad: string, entries: Body)

  datatype Key = NoKey | Key(name: seq<Char>, beforeColon: string, afterColon: string)

  /** Whitespace as section 2 of RFC 8259 has it. */
  predicate JsonBlank(c: char) { c == ' ' || c == '\t' || c == '\n' || c == '\r' }

  predicate Pad(s: string) { forall k :: 0 <= k < |s| ==> JsonBlank(s[k]) }

  predicate ScalarText(s: string) {
    s != [] && forall k :: 0 <= k < |s| ==> s[k] != '\"' && s[k] != ',' && !Closer(s[k]) && !Blank(s[k])
  }

  predicate WellFormedChars(chars: seq<Char>) {
    forall k :: 0 <= k < |chars| && chars[k].Plain? ==> chars[k].c != '\"' && chars[k].c != '\\'
  }

  predicate WellFormed(v: Value)
    decreases v
  {
    match v
    case Scalar(text) => ScalarText(text)
    case Text(chars) => WellFormedChars(chars)
    case Container(kind, pad, body) => Pad(pad) && WellFormedBody(kind, body)
  }

  predicate WellFormedBody(kind: Kind, b: Body)
    decreases b
  {
    match b
    case Nothing => true
    case Entry(key, value, pad, rest) =>
      WellFormedKey(kind, key) && WellFormed(value) && Pad(pad) && WellFormedRest(kind, rest)
  }

  predicate WellFormedRest(kind: Kind, rest: Rest)
    decreases rest
  {
    match rest
    case Last => true
    case Trailing(pad) => Pad(pad)
    case Next(pad, entries) => Pad(pad) && entries.Entry? && WellFormedBody(kind, entries)
  }

  predicate WellFormedKey(kind: Kind, key: Key) {
    match key
    case NoKey => kind.Array?
    case Key(name, before, after) => kind.Object? && WellFormedChars(name) && Pad(before) && Pad(after)
  }

  // ---- Printing, with the trailing commas or without -----------------------

  function PrintChar(c: Char): string { if c.Plain? then [c.c] else ['\\', c.c] }

  function PrintChars(chars: seq<Char>): string {
    if chars == [] then [] else PrintChar(chars[0]) + PrintChars(chars[1..])
  }

  function PrintText(chars: seq<Char>): string { ['\"'] + PrintChars(chars) + ['\"'] }

  function Opening(kind: Kind): char { if kind.Array? then '[' else '{' }
  function Closing(kind: Kind): char { if kind.Array? then ']' else '}' }

  function Print(v: Value, commas: bool): string
    decreases v
  {
    match v
    case Scalar(text) => text
    case Text(chars) => PrintText(chars)
    case Container(kind, pad, body) => [Opening(kind)] + pad + PrintBody(kind, body, commas)
  }

  function PrintKey(key: Key): string {
    match key
    case NoKey => []
    case Key(name, before, after) => PrintText(name) + before + [':'] + after
  }

  function PrintBody(kind: Kind, b: Body, commas: bool): string
    decreases b
  {
    match b
    case Nothing => [Closing(kind)]
    case Entry(key, value, pad, rest) =>
      PrintKey(key) + Print(value, commas) + pad + PrintRest(kind, rest, commas)
  }

  function PrintRest(kind: Kind, rest: Rest, commas: bool): string
    decreases rest
  {
    match rest
    case Last => [Closing(kind)]
    case Trailing(pad) => (if commas then [','] else []) + pad + [Closing(kind)]
    case Next(pad, entries) => [','] + pad + PrintBody(kind, entries, commas)
  }

  lemma {:induction false} BodyCloses(kind: Kind, b: Body, commas: bool)
    ensures var text := PrintBody(kind, b, commas);
      text != [] && text[|text| - 1] == if kind.Array? then ']' else '}'
    decreases b
  {
    if b.Entry? && b.rest.Next? { BodyCloses(kind, b.rest.entries, commas); }
  }

  /** An array stands in brackets and an object in braces. */
  lemma ContainersAreEnclosed(v: Value, commas: bool)
    requires v.Container?
    ensures var text := Print(v, commas);
      && |text| >= 2
      && text[0] == (if v.kind.Array? then '[' else '{')
      && text[|text| - 1] == if v.kind.Array? then ']' else '}'
  {
    BodyCloses(v.kind, v.body, commas);
  }

  /** What an array of two numbers looks like with a comma too many, and without. */
  lemma TwoNumbersPrinted(first: string, second: string, commas: bool)
    ensures var last := Entry(NoKey, Scalar(second), "", Trailing(""));
      Print(Container(Array, "", Entry(NoKey, Scalar(first), "", Next(" ", last))), commas)
      == "[" + first + ", " + second + if commas then ",]" else "]"
  {
    var last := Entry(NoKey, Scalar(second), "", Trailing(""));
    assert PrintBody(Array, last, commas) == second + if commas then ",]" else "]";
    var rest := ", " + second + if commas then ",]" else "]";
    assert PrintRest(Array, Next(" ", last), commas) == rest;
    assert PrintBody(Array, Entry(NoKey, Scalar(first), "", Next(" ", last)), commas) == first + rest;
  }

  // ---- The repair, piece by piece ------------------------------------------

  /** Text with no quote and no comma goes through. */
  lemma {:induction false} PlainGoesThrough(s: string, after: string)
    requires forall k :: 0 <= k < |s| ==> s[k] != '\"' && s[k] != ','
    ensures Strip(Outside, s + after) == s + Strip(Outside, after)
  {
    if s == [] {
      assert s + after == after;
    } else {
      assert (s + after)[1..] == s[1..] + after;
      PlainGoesThrough(s[1..], after);
    }
  }

  lemma {:induction false} CharsGoThrough(chars: seq<Char>, after: string)
    requires WellFormedChars(chars)
    ensures Strip(Inside, PrintChars(chars) + after) == PrintChars(chars) + Strip(Inside, after)
  {
    if chars == [] {
      assert PrintChars(chars) + after == after;
    } else {
      var first, rest := PrintChar(chars[0]), PrintChars(chars[1..]);
      CharsGoThrough(chars[1..], after);
      CharGoesThrough(chars[0], rest + after);
      Nested(first, rest, after);
      Nested(first, rest, Strip(Inside, after));
    }
  }

  lemma CharGoesThrough(c: Char, tail: string)
    requires c.Plain? ==> c.c != '\"' && c.c != '\\'
    ensures Strip(Inside, PrintChar(c) + tail) == PrintChar(c) + Strip(Inside, tail)
  {
    if c.Plain? {
      assert ([c.c] + tail)[1..] == tail;
    } else {
      assert PrintChar(c) + tail == ['\\'] + ([c.c] + tail);
      assert (['\\'] + ([c.c] + tail))[1..] == [c.c] + tail && ([c.c] + tail)[1..] == tail;
    }
  }

  lemma TextGoesThrough(chars: seq<Char>, after: string)
    requires WellFormedChars(chars)
    ensures Strip(Outside, PrintText(chars) + after) == PrintText(chars) + Strip(Outside, after)
  {
    var inner, quote := PrintChars(chars), ['\"'];
    calc {
      Strip(Outside, PrintText(chars) + after);
    == { Quoted(inner, quote, after); }
      Strip(Outside, quote + (inner + (quote + after)));
    == { QuoteGoesThrough(inner + (quote + after)); }
      quote + Strip(Inside, inner + (quote + after));
    == { CharsGoThrough(chars, quote + after); }
      quote + (inner + Strip(Inside, quote + after));
    == { QuoteGoesThrough(after); }
      quote + (inner + (quote + Strip(Outside, after)));
    == { Quoted(inner, quote, Strip(Outside, after)); }
      PrintText(chars) + Strip(Outside, after);
    }
  }

  lemma Quoted(inner: string, quote: string, after: string)
    ensures quote + inner + quote + after == quote + (inner + (quote + after))
  {}

  /** A quote opens a string outside one, and closes it inside. */
  lemma QuoteGoesThrough(after: string)
    ensures Strip(Outside, ['\"'] + after) == ['\"'] + Strip(Inside, after)
    ensures Strip(Inside, ['\"'] + after) == ['\"'] + Strip(Outside, after)
  {
    assert (['\"'] + after)[1..] == after;
  }

  lemma {:induction false} SkipsPad(pad: string, after: string)
    requires Pad(pad)
    ensures SkipBlanks(pad + after) == SkipBlanks(after)
  {
    if pad == [] {
      assert pad + after == after;
    } else {
      assert (pad + after)[1..] == pad[1..] + after;
      SkipsPad(pad[1..], after);
    }
  }

  /** A comma before whitespace and a closer goes. */
  lemma CommaGoes(pad: string, kind: Kind, after: string)
    requires Pad(pad)
    ensures Strip(Outside, [','] + pad + [Closing(kind)] + after) == pad + [Closing(kind)] + Strip(Outside, after)
  {
    var rest := pad + ([Closing(kind)] + after);
    SkipsPad(pad, [Closing(kind)] + after);
    assert [','] + pad + [Closing(kind)] + after == [','] + rest;
    assert ([','] + rest)[1..] == rest;
    PadAndCloser(pad, kind, after);
  }

  lemma PadAndCloser(pad: string, kind: Kind, after: string)
    requires Pad(pad)
    ensures Strip(Outside, pad + ([Closing(kind)] + after)) == pad + [Closing(kind)] + Strip(Outside, after)
  {
    assert pad + ([Closing(kind)] + after) == (pad + [Closing(kind)]) + after;
    PlainGoesThrough(pad + [Closing(kind)], after);
  }

  /** A comma before whitespace and an entry stays. */
  lemma CommaStays(pad: string, entry: string, after: string)
    requires Pad(pad) && entry != [] && !Closer(entry[0]) && !Blank(entry[0])
    ensures Strip(Outside, [','] + pad + entry + after) == [','] + pad + Strip(Outside, entry + after)
  {
    var rest := pad + (entry + after);
    SkipsPad(pad, entry + after);
    assert [','] + pad + entry + after == [','] + rest;
    assert ([','] + rest)[1..] == rest;
    assert SkipBlanks(entry + after) == entry + after;
    PlainGoesThrough(pad, entry + after);
  }

  // ---- The repair, whole ---------------------------------------------------

  lemma ValueStarts(v: Value, commas: bool)
    requires WellFormed(v)
    ensures Print(v, commas) != [] && !Closer(Print(v, commas)[0]) && !Blank(Print(v, commas)[0])
  {}

  lemma EntryStarts(kind: Kind, b: Body, commas: bool)
    requires WellFormedBody(kind, b) && b.Entry?
    ensures var s := PrintBody(kind, b, commas); s != [] && !Closer(s[0]) && !Blank(s[0])
  {
    ValueStarts(b.value, commas);
    var key, value := PrintKey(b.key), Print(b.value, commas);
    assert key + value != [];
    assert (key + value)[0] == if b.key.NoKey? then value[0] else '\"';
  }

  lemma KeyGoesThrough(kind: Kind, key: Key, after: string)
    requires WellFormedKey(kind, key)
    ensures Strip(Outside, PrintKey(key) + after) == PrintKey(key) + Strip(Outside, after)
  {
    if key.Key? {
      Regroup(PrintText(key.name), key.beforeColon, [':'], key.afterColon, after);
      Regroup(PrintText(key.name), key.beforeColon, [':'], key.afterColon, Strip(Outside, after));
      TextGoesThrough(key.name, key.beforeColon + ([':'] + (key.afterColon + after)));
      PlainGoesThrough(key.beforeColon, [':'] + (key.afterColon + after));
      PlainGoesThrough([':'], key.afterColon + after);
      PlainGoesThrough(key.afterColon, after);
    } else {
      assert PrintKey(key) + after == after;
    }
  }

  lemma {:induction false} ValueRepaired(v: Value, commas: bool, after: string)
    requires WellFormed(v)
    ensures Strip(Outside, Print(v, commas) + after) == Print(v, false) + Strip(Outside, after)
    decreases v
  {
    match v
    case Scalar(text) => PlainGoesThrough(text, after);
    case Text(chars) => TextGoesThrough(chars, after);
    case Container(kind, pad, body) =>
      var open := [Opening(kind)] + pad;
      calc {
        Strip(Outside, Print(v, commas) + after);
      == { Nested(open, PrintBody(kind, body, commas), after); }
        Strip(Outside, open + (PrintBody(kind, body, commas) + after));
      == { PlainGoesThrough(open, PrintBody(kind, body, commas) + after); }
        open + Strip(Outside, PrintBody(kind, body, commas) + after);
      == { BodyRepaired(kind, body, commas, after); }
        open + (PrintBody(kind, body, false) + Strip(Outside, after));
      == { Nested(open, PrintBody(kind, body, false), Strip(Outside, after)); }
        Print(v, false) + Strip(Outside, after);
      }
  }

  lemma {:induction false} BodyRepaired(kind: Kind, b: Body, commas: bool, after: string)
    requires WellFormedBody(kind, b)
    ensures Strip(Outside, PrintBody(kind, b, commas) + after) == PrintBody(kind, b, false) + Strip(Outside, after)
    decreases b
  {
    match b
    case Nothing => PlainGoesThrough([Closing(kind)], after);
    case Entry(key, value, pad, rest) =>
      var tail := PrintRest(kind, rest, commas) + after;
      Regroup(PrintKey(key), Print(value, commas), pad, PrintRest(kind, rest, commas), after);
      Regroup(PrintKey(key), Print(value, false), pad, PrintRest(kind, rest, false), Strip(Outside, after));
      KeyGoesThrough(kind, key, Print(value, commas) + (pad + tail));
      ValueRepaired(value, commas, pad + tail);
      PlainGoesThrough(pad, tail);
      RestRepaired(kind, rest, commas, after);
  }

  lemma Regroup(a: string, b: string, c: string, d: string, e: string)
    ensures a + b + c + d + e == a + (b + (c + (d + e)))
  {}

  lemma {:induction false} RestRepaired(kind: Kind, rest: Rest, commas: bool, after: string)
    requires WellFormedRest(kind, rest)
    ensures Strip(Outside, PrintRest(kind, rest, commas) + after) ==
            PrintRest(kind, rest, false) + Strip(Outside, after)
    decreases rest
  {
    match rest
    case Last => PlainGoesThrough([Closing(kind)], after);
    case Trailing(pad) =>
      assert [] + pad == pad;
      if commas {
        CommaGoes(pad, kind, after);
      } else {
        Nested(pad, [Closing(kind)], after);
        PadAndCloser(pad, kind, after);
      }
    case Next(pad, entries) =>
      EntryStarts(kind, entries, commas);
      CommaStays(pad, PrintBody(kind, entries, commas), after);
      Nested([','] + pad, PrintBody(kind, entries, false), Strip(Outside, after));
      BodyRepaired(kind, entries, commas, after);
  }

  /**
    For every JSON value, however it is laid out and whichever of its arrays and objects end in a
    comma, the repair is the text printed without those commas; and it is the identity on a text
    that has none.
   */
  lemma RepairUndoesTrailingCommas(v: Value, before: string, after: string, commas: bool)
    requires WellFormed(v) && Pad(before) && Pad(after)
    ensures StripTrailingCommas(before + Print(v, commas) + after) == before + Print(v, false) + after
  {
    Nested(before, Print(v, commas), after);
    Nested(before, Print(v, false), after);
    PlainGoesThrough(before, Print(v, commas) + after);
    ValueRepaired(v, commas, after);
    Nested(after, [], []);
    PlainGoesThrough(after, []);
  }

  lemma Nested(a: string, b: string, c: string)
    ensures a + b + c == a + (b + c) && a + [] == a
  {}

  // ---- Parsing -------------------------------------------------------------

  /** `parse_response` and its siblings after the fences: validate, and on failure validate the repaired text. */
  function Parse<T>(validate: string -> Option<T>, cleaned: string): Option<T> {
    if validate(cleaned).Some? then validate(cleaned) else validate(StripTrailingCommas(cleaned))
  }

  /**
    A parser that refuses trailing commas is rescued: a response with them parses to what the response
    without them does. And a response without them is never judged differently for the repair.
   */
  lemma ParseRescues<T>(validate: string -> Option<T>, v: Value, before: string, after: string)
    requires WellFormed(v) && Pad(before) && Pad(after)
    ensures validate(before + Print(v, true) + after).None? ==>
              Parse(validate, before + Print(v, true) + after) == validate(before + Print(v, false) + after)
    ensures Parse(validate, before + Print(v, false) + after) == validate(before + Print(v, false) + after)
  {
    RepairUndoesTrailingCommas(v, before, after, true);
    RepairUndoesTrailingCommas(v, before, after, false);
  }
}
