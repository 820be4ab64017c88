/** What embedding promises: the text is safe inside a script element and reads back as
    the payload it was made from. */
module ScriptJsonProofs {
  import opened Json
  import opened Sorting
  import opened ScriptJson

  // ---------------------------------------------------------------- statements

  /** No high surrogate is directly followed by a low one. */
  ghost predicate NoPair(s: Text) {
    forall i :: 0 <= i < |s| - 1 ==> !(IsHigh(s[i]) && IsLow(s[i + 1]))
  }

  /** No string or key of the payload holds such a pair.  Every string of Unicode
      scalar values satisfies this. */
  ghost predicate Clean(v: Payload) {
    match v
    case Null => true
    case Bool(_) => true
    case Int(_) => true
    case Str(s) => NoPair(s)
    case Arr(items) => forall i :: 0 <= i < |items| ==> Clean(items[i])
    case Obj(fields) => forall k :: k in fields ==> NoPair(k) && Clean(fields[k])
  }

  ghost predicate IsAscii(s: Text) { forall i :: 0 <= i < |s| ==> s[i] < 0x80 }

  const SPECIAL: set<CodePoint> := {AMPERSAND, LESS, GREATER, 0x2028, 0x2029}

  ghost predicate Plain(s: Text) { forall i :: 0 <= i < |s| ==> s[i] !in SPECIAL }

  // ---------------------------------------------------------------- embedding

  lemma {:induction false} ReplaceConcat(a: Text, b: Text, one: CodePoint, with: Text)
    ensures Replace(a + b, one, with) == Replace(a, one, with) + Replace(b, one, with)
  {
    if a == [] {
      assert a + b == b;
    } else {
      assert (a + b)[1..] == a[1..] + b;
      ReplaceConcat(a[1..], b, one, with);
    }
  }

  lemma EmbedConcat(a: Text, b: Text)
    ensures Embed(a + b) == Embed(a) + Embed(b)
  {
    ReplaceConcat(a, b, AMPERSAND, UnicodeEscape(0x26));
    var a1, b1 := Replace(a, AMPERSAND, UnicodeEscape(0x26)), Replace(b, AMPERSAND, UnicodeEscape(0x26));
    ReplaceConcat(a1, b1, LESS, UnicodeEscape(0x3C));
    var a2, b2 := Replace(a1, LESS, UnicodeEscape(0x3C)), Replace(b1, LESS, UnicodeEscape(0x3C));
    ReplaceConcat(a2, b2, GREATER, UnicodeEscape(0x3E));
    var a3, b3 := Replace(a2, GREATER, UnicodeEscape(0x3E)), Replace(b2, GREATER, UnicodeEscape(0x3E));
    ReplaceConcat(a3, b3, 0x2028, UnicodeEscape(0x2028));
    var a4, b4 := Replace(a3, 0x2028, UnicodeEscape(0x2028)), Replace(b3, 0x2028, UnicodeEscape(0x2028));
    ReplaceConcat(a4, b4, 0x2029, UnicodeEscape(0x2029));
  }

  lemma {:induction false} ReplaceAbsent(a: Text, one: CodePoint, with: Text)
    requires one !in a
    ensures Replace(a, one, with) == a
  {
    if a != [] {
      ReplaceAbsent(a[1..], one, with);
    }
  }

  lemma EmbedPlain(a: Text)
    requires Plain(a)
    ensures Embed(a) == a
  {
    ReplaceAbsent(a, AMPERSAND, UnicodeEscape(0x26));
    ReplaceAbsent(a, LESS, UnicodeEscape(0x3C));
    ReplaceAbsent(a, GREATER, UnicodeEscape(0x3E));
    ReplaceAbsent(a, 0x2028, UnicodeEscape(0x2028));
    ReplaceAbsent(a, 0x2029, UnicodeEscape(0x2029));
  }

  /** The replacements act on each character alone. */
  lemma EmbedOne(c: CodePoint)
    ensures Embed([c]) == if c in SPECIAL then UnicodeEscape(c) else [c]
  {
    if c in SPECIAL {
      var e := UnicodeEscape(c);
      assert [c][1..] == [];
      assert e + [] == e;
      forall one: CodePoint, with: Text ensures Replace([c], one, with) == if c == one then with else [c] {
        assert with + [] == with && [c] + [] == [c];
      }
      forall one: CodePoint, with: Text | one in SPECIAL ensures Replace(e, one, with) == e {
        ReplaceAbsent(e, one, with);
      }
    } else {
      EmbedPlain([c]);
    }
  }

  lemma EscapeIsPlain(u: int)
    requires 0 <= u < 0x10000
    ensures Plain(UnicodeEscape(u)) && IsAscii(UnicodeEscape(u)) && |UnicodeEscape(u)| == 6
    ensures UnicodeEscape(u)[..2] == [BACKSLASH, LETTER_U]
  {
  }

  lemma {:induction false} EmbedIsSafe(text: Text)
    ensures Plain(Embed(text))
    ensures IsAscii(text) ==> IsAscii(Embed(text))
  {
    hide Embed, UnicodeEscape;
    if text != [] {
      assert text == [text[0]] + text[1..];
      EmbedConcat([text[0]], text[1..]);
      EmbedOne(text[0]);
      EscapeIsPlain(0x26);
      EscapeIsPlain(0x3C);
      EscapeIsPlain(0x3E);
      EscapeIsPlain(0x2028);
      EscapeIsPlain(0x2029);
      EmbedIsSafe(text[1..]);
    } else {
      EmbedPlain(text);
    }
  }

  /** A string character after encoding and embedding. */
  function EmbeddedChar(c: CodePoint): Text {
    if c == AMPERSAND || c == LESS || c == GREATER then UnicodeEscape(c) else EncodeChar(c)
  }

  function EmbeddedChars(s: Text): Text {
    if s == [] then [] else EmbeddedChar(s[0]) + EmbeddedChars(s[1..])
  }

  lemma EmbedEncodeChar(c: CodePoint)
    ensures Embed(EncodeChar(c)) == EmbeddedChar(c)
    ensures IsAscii(EncodeChar(c))
  {
    hide Embed, UnicodeEscape;
    if c == AMPERSAND || c == LESS || c == GREATER {
      EmbedOne(c);
    } else {
      if c >= 0x10000 {
        EscapeIsPlain(0xD800 + (c - 0x10000) / 0x400);
        EscapeIsPlain(0xDC00 + (c - 0x10000) % 0x400);
      } else {
        EscapeIsPlain(c);
      }
      assert Plain(EncodeChar(c));
      EmbedPlain(EncodeChar(c));
    }
  }

  lemma {:induction false} EmbedEncodeChars(s: Text)
    ensures Embed(EncodeChars(s)) == EmbeddedChars(s)
    ensures IsAscii(EncodeChars(s))
  {
    if s == [] {
      EmbedPlain([]);
    } else {
      EmbedEncodeChar(s[0]);
      EmbedEncodeChars(s[1..]);
      EmbedConcat(EncodeChar(s[0]), EncodeChars(s[1..]));
    }
  }

  lemma EmbedString(s: Text)
    ensures Embed(PrintString(s)) == [QUOTE] + EmbeddedChars(s) + [QUOTE]
    ensures IsAscii(PrintString(s))
  {
    EmbedEncodeChars(s);
    EmbedPlain([QUOTE]);
    EmbedConcat([QUOTE], EncodeChars(s));
    EmbedConcat([QUOTE] + EncodeChars(s), [QUOTE]);
  }

  // ---------------------------------------------------------------- strings

  lemma HexDigitReads(d: int)
    requires 0 <= d < 16
    ensures HexValue(HexDigit(d)) == d
  {
  }

  lemma HexDigitsAddUp(u: int)
    requires 0 <= u < 0x10000
    ensures 0 <= u / 0x1000 < 16
    ensures u / 0x1000 * 0x1000 + u / 0x100 % 16 * 0x100 + u / 16 % 16 * 16 + u % 16 == u
  {
    var a, b := u / 16, u / 0x100;
    assert a / 16 == b && b / 16 == u / 0x1000;
  }

  lemma HexReads(u: int, tail: Text)
    requires 0 <= u < 0x10000
    ensures ParseHex(UnicodeEscape(u)[2..] + tail) == Done(u, tail)
  {
    hide HexDigit, HexValue;
    var s := UnicodeEscape(u)[2..] + tail;
    assert s[4..] == tail;
    HexDigitReads(u / 0x1000);
    HexDigitReads(u / 0x100 % 16);
    HexDigitReads(u / 16 % 16);
    HexDigitReads(u % 16);
    HexDigitsAddUp(u);
  }

  /** An escape of a low surrogate, or a broken escape, comes next. */
  predicate EscapedLowAhead(tail: Text) {
    && |tail| >= 2 && tail[0] == BACKSLASH && tail[1] == LETTER_U
    && (ParseHex(tail[2..]).Fail? || IsLow(ParseHex(tail[2..]).value))
  }

  lemma EscapeReads(u: int, tail: Text)
    requires 0 <= u < 0x10000
    requires IsHigh(u) ==> !EscapedLowAhead(tail)
    ensures ParseChar(UnicodeEscape(u) + tail) == Done(u, tail)
  {
    var s := UnicodeEscape(u) + tail;
    assert s[2..] == UnicodeEscape(u)[2..] + tail;
    HexReads(u, tail);
  }

  lemma TwoEscapesRead(hi: int, lo: int, tail: Text)
    requires IsHigh(hi) && IsLow(lo)
    ensures ParseChar(UnicodeEscape(hi) + (UnicodeEscape(lo) + tail))
         == Done(0x10000 + (hi - 0xD800) * 0x400 + (lo - 0xDC00), tail)
  {
    hide UnicodeEscape, ParseHex;
    EscapeIsPlain(hi);
    EscapeIsPlain(lo);
    var t := UnicodeEscape(lo) + tail;
    var s := UnicodeEscape(hi) + t;
    assert s[2..] == UnicodeEscape(hi)[2..] + t;
    HexReads(hi, t);
    assert t[..2] == UnicodeEscape(lo)[..2] && t[2..] == UnicodeEscape(lo)[2..] + tail;
    assert s[0] == s[..2][0] && s[1] == s[..2][1] && s[..2] == UnicodeEscape(hi)[..2];
    assert t[0] == t[..2][0] && t[1] == t[..2][1];
    HexReads(lo, tail);
  }

  lemma SurrogatesAddUp(c: CodePoint)
    requires c >= 0x10000
    ensures var hi, lo := 0xD800 + (c - 0x10000) / 0x400, 0xDC00 + (c - 0x10000) % 0x400;
            IsHigh(hi) && IsLow(lo) && 0x10000 + (hi - 0xD800) * 0x400 + (lo - 0xDC00) == c
  {
  }

  lemma PairReads(c: CodePoint, tail: Text)
    requires c >= 0x10000
    ensures ParseChar(EncodeChar(c) + tail) == Done(c, tail)
  {
    hide UnicodeEscape, ParseChar, IsHigh, IsLow;
    var hi, lo := 0xD800 + (c - 0x10000) / 0x400, 0xDC00 + (c - 0x10000) % 0x400;
    SurrogatesAddUp(c);
    TwoEscapesRead(hi, lo, tail);
    assert EncodeChar(c) + tail == UnicodeEscape(hi) + (UnicodeEscape(lo) + tail);
  }

  lemma CharReads(c: CodePoint, tail: Text)
    requires IsHigh(c) ==> !EscapedLowAhead(tail)
    ensures EmbeddedChar(c) != [] && EmbeddedChar(c)[0] != QUOTE
    ensures ParseChar(EmbeddedChar(c) + tail) == Done(c, tail)
  {
    var s := EmbeddedChar(c) + tail;
    if c >= 0x10000 {
      PairReads(c, tail);
    } else if |EmbeddedChar(c)| == 6 {
      EscapeReads(c, tail);
    } else if |EmbeddedChar(c)| == 1 {
      assert s[1..] == tail;
    } else {
      assert s[2..] == tail;
    }
  }

  lemma EscapeIsNotLow(u: int, t: Text)
    requires 0 <= u < 0x10000 && !IsLow(u)
    ensures !EscapedLowAhead(UnicodeEscape(u) + t)
  {
    hide ParseHex;
    assert (UnicodeEscape(u) + t)[2..] == UnicodeEscape(u)[2..] + t;
    HexReads(u, t);
  }

  lemma CharShapes(c: CodePoint)
    requires c < 0x10000
    ensures var e := EmbeddedChar(c);
            || e == UnicodeEscape(c)
            || (|e| == 1 && e[0] != BACKSLASH)
            || (|e| == 2 && e[1] != LETTER_U)
  {
    hide UnicodeEscape;
  }

  lemma CharIsNotLow(c: CodePoint, t: Text)
    requires !IsLow(c)
    ensures !EscapedLowAhead(EmbeddedChar(c) + t)
  {
    hide UnicodeEscape, ParseHex;
    if c >= 0x10000 {
      var hi, lo := 0xD800 + (c - 0x10000) / 0x400, 0xDC00 + (c - 0x10000) % 0x400;
      assert EmbeddedChar(c) + t == UnicodeEscape(hi) + (UnicodeEscape(lo) + t);
      EscapeIsNotLow(hi, UnicodeEscape(lo) + t);
    } else {
      CharShapes(c);
      EscapeIsNotLow(c, t);
      hide EmbeddedChar;
    }
  }

  lemma QuoteIsNotLow(tail: Text)
    requires tail != [] && tail[0] == QUOTE
    ensures !EscapedLowAhead(tail)
  {
    hide ParseHex;
  }

  lemma NothingLowAhead(s: Text, tail: Text)
    requires s != [] ==> !IsLow(s[0])
    requires tail != [] && tail[0] == QUOTE
    ensures !EscapedLowAhead(EmbeddedChars(s) + tail)
  {
    hide EmbeddedChar, EscapedLowAhead, IsLow;
    if s == [] {
      assert EmbeddedChars(s) + tail == tail;
      QuoteIsNotLow(tail);
    } else {
      var t := EmbeddedChars(s[1..]) + tail;
      assert EmbeddedChars(s) + tail == EmbeddedChar(s[0]) + t;
      CharIsNotLow(s[0], t);
    }
  }

  lemma {:induction false} StringReads(s: Text, rest: Text)
    requires NoPair(s)
    ensures ParseString(EmbeddedChars(s) + [QUOTE] + rest) == Done(s, rest)
  {
    hide EmbeddedChar, ParseChar, EscapedLowAhead;
    var tail := [QUOTE] + rest;
    assert EmbeddedChars(s) + [QUOTE] + rest == EmbeddedChars(s) + tail;
    if s == [] {
      assert EmbeddedChars(s) + tail == tail && tail[1..] == rest;
    } else {
      var t := EmbeddedChars(s[1..]) + tail;
      assert EmbeddedChars(s) + tail == EmbeddedChar(s[0]) + t;
      if IsHigh(s[0]) {
        NothingLowAhead(s[1..], tail);
      }
      CharReads(s[0], t);
      assert t == EmbeddedChars(s[1..]) + [QUOTE] + rest;
      StringReads(s[1..], rest);
      assert s == [s[0]] + s[1..];
    }
  }

  // ---------------------------------------------------------------- numbers

  lemma {:induction false} DigitsAreDigits(n: nat)
    ensures Digits(n) != []
    ensures forall i :: 0 <= i < |Digits(n)| ==> IsDigit(Digits(n)[i])
    ensures DigitsValue(Digits(n)) == n
    ensures Digits(n)[0] == '0' as int ==> n == 0
  {
    if n >= 10 {
      DigitsAreDigits(n / 10);
      var d := Digits(n);
      assert d[..|d| - 1] == Digits(n / 10);
      assert d[0] == Digits(n / 10)[0];
    }
  }

  lemma {:induction false} RunOfDigits(d: Text, rest: Text)
    requires forall i :: 0 <= i < |d| ==> IsDigit(d[i])
    requires rest != [] ==> !IsDigit(rest[0])
    ensures DigitRun(d + rest) == |d|
  {
    if d == [] {
      assert d + rest == rest;
    } else {
      assert (d + rest)[1..] == d[1..] + rest;
      RunOfDigits(d[1..], rest);
    }
  }

  /** What may follow a value inside a printed document. */
  predicate Closes(rest: Text) {
    rest == [] || rest[0] == COMMA || rest[0] == CLOSE_ARRAY || rest[0] == CLOSE_OBJECT
  }

  lemma NaturalReads(n: nat, rest: Text)
    requires Closes(rest)
    ensures ParseNatural(Digits(n) + rest) == Done(n, rest)
  {
    var d := Digits(n);
    var t := d + rest;
    DigitsAreDigits(n);
    RunOfDigits(d, rest);
    assert d[0] == '0' as int ==> |d| == 1;
    hide DigitsValue, DigitRun, Digits;
    assert t[..|d|] == d && t[|d|..] == rest;
  }

  lemma NumberReads(n: int, rest: Text)
    requires Closes(rest)
    ensures ParseNumber(PrintInt(n) + rest) == Done(Int(n), rest)
    ensures PrintInt(n) != [] && (PrintInt(n)[0] == '-' as int || IsDigit(PrintInt(n)[0]))
    ensures forall i :: 0 <= i < |PrintInt(n)| ==> PrintInt(n)[i] == '-' as int || IsDigit(PrintInt(n)[i])
  {
    hide Digits, ParseNatural;
    var m := if n < 0 then -n else n;
    DigitsAreDigits(m);
    NaturalReads(m, rest);
    if n < 0 {
      var s := PrintInt(n) + rest;
      assert s[1..] == Digits(m) + rest;
    }
  }

  // ---------------------------------------------------------------- values

  lemma EmbedAscii(s: string)
    requires forall i :: 0 <= i < |s| ==> s[i] < '\U{0080}' && s[i] != '&' && s[i] != '<' && s[i] != '>'
    ensures Embed(Ascii(s)) == Ascii(s)
  {
    EmbedPlain(Ascii(s));
  }

  /** The first character of a printed value decides how it is read. */
  lemma PrintedHead(v: Payload)
    ensures var e := JsonScriptPayload(v);
            e != [] && !IsSpace(e[0]) && e[0] != CLOSE_ARRAY && e[0] != CLOSE_OBJECT
    decreases v
  {
    hide Embed, PrintMembers, PrintItems, KeysOf;
    match v
    case Arr(items) =>
      var body := PrintItems(v, items) + [CLOSE_ARRAY];
      assert Print(v) == [OPEN_ARRAY] + body;
      hide Print;
      HeadOf(OPEN_ARRAY, body);
    case Obj(fields) =>
      var body := PrintMembers(v, KeysOf(fields)) + [CLOSE_OBJECT];
      assert Print(v) == [OPEN_OBJECT] + body;
      hide Print;
      HeadOf(OPEN_OBJECT, body);
    case _ => ScalarHead(v);
  }

  lemma ScalarHead(v: Payload)
    requires !v.Arr? && !v.Obj?
    ensures var e := JsonScriptPayload(v);
            e != [] && !IsSpace(e[0]) && e[0] != CLOSE_ARRAY && e[0] != CLOSE_OBJECT
  {
    hide Embed, PrintInt, PrintString;
    match v
    case Null => EmbedAscii("null");
    case Bool(b) => EmbedAscii("true"); EmbedAscii("false");
    case Int(n) =>
      NumberReads(n, []);
      EmbedPlain(PrintInt(n));
    case Str(s) => EmbedString(s);
  }

  lemma HeadOf(c: CodePoint, s: Text)
    requires c !in SPECIAL
    ensures Embed([c] + s) == [c] + Embed(s)
  {
    EmbedConcat([c], s);
    EmbedPlain([c]);
  }

  lemma Around(open: CodePoint, body: Text, close: CodePoint, rest: Text)
    requires open !in SPECIAL && close !in SPECIAL
    ensures Embed([open] + body + [close]) + rest == [open] + (Embed(body) + ([close] + rest))
  {
    EmbedConcat([open] + body, [close]);
    HeadOf(open, body);
    EmbedPlain([close]);
  }

  lemma SpaceIsSkipped(s: Text)
    ensures SkipSpace([32] + s) == SkipSpace(s)
    ensures ParseValue([32] + s) == ParseValue(s)
    ensures ParseItems([32] + s) == ParseItems(s)
    ensures ParseMembers([32] + s) == ParseMembers(s)
  {
    assert ([32] + s)[1..] == s;
  }

  /** A printed and embedded value reads back, whatever closes it. */
  lemma {:induction false} ValueReads(v: Payload, rest: Text)
    requires Clean(v) && Closes(rest)
    ensures ParseValue(JsonScriptPayload(v) + rest) == Done(v, rest)
    decreases v, 1, 0
  {
    hide Embed, ParseNumber, ParseString, EmbeddedChars, PrintString, PrintInt;
    var e := JsonScriptPayload(v);
    var s := e + rest;
    PrintedHead(v);
    assert SkipSpace(s) == s;
    match v
    case Null =>
      EmbedAscii("null");
      assert s[..4] == Ascii("null") && s[4..] == rest;
    case Bool(b) =>
      EmbedAscii("true");
      EmbedAscii("false");
      assert b ==> s[..4] == Ascii("true") && s[4..] == rest;
      assert !b ==> s[..5] == Ascii("false") && s[5..] == rest;
    case Int(n) =>
      NumberReads(n, rest);
      EmbedPlain(PrintInt(n));
      NotAWord(s);
    case Str(str) =>
      EmbedString(str);
      assert s[1..] == EmbeddedChars(str) + [QUOTE] + rest;
      StringReads(str, rest);
    case Arr(items) =>
      ArrayReads(v, items, rest);
    case Obj(fields) =>
      ObjectReads(v, fields, rest);
  }

  lemma NotAWord(s: Text)
    requires s != [] && (s[0] == '-' as int || IsDigit(s[0]))
    ensures !StartsWith(s, Ascii("null")) && !StartsWith(s, Ascii("true")) && !StartsWith(s, Ascii("false"))
  {
    assert forall p: Text :: p != [] && p[0] != s[0] ==> !StartsWith(s, p) by {
      forall p: Text | p != [] && p[0] != s[0] ensures !StartsWith(s, p) {
        if |p| <= |s| {
          assert s[..|p|][0] == s[0];
        }
      }
    }
  }

  lemma {:induction false} ArrayReads(v: Payload, items: seq<Payload>, rest: Text)
    requires v == Arr(items) && Clean(v)
    ensures ParseValue(JsonScriptPayload(v) + rest) == Done(v, rest)
    decreases v, 0, |items| + 1
  {
    var s := JsonScriptPayload(v) + rest;
    Around(OPEN_ARRAY, PrintItems(v, items), CLOSE_ARRAY, rest);
    var t := Embed(PrintItems(v, items)) + ([CLOSE_ARRAY] + rest);
    assert s == [OPEN_ARRAY] + t && s[1..] == t;
    if items == [] {
      EmbedPlain([]);
      assert t == [CLOSE_ARRAY] + rest && t[1..] == rest;
    } else {
      ItemsRead(v, items, rest);
      PrintedHead(items[0]);
      ItemsHead(v, items);
      assert t[0] == JsonScriptPayload(items[0])[0];
      assert SkipSpace(t) == t;
    }
  }

  lemma ItemsHead(v: Payload, items: seq<Payload>)
    requires items != [] && forall i :: 0 <= i < |items| ==> items[i] < v
    ensures Embed(PrintItems(v, items))
         == JsonScriptPayload(items[0])
            + (if |items| == 1 then [] else [COMMA] + ([32] + Embed(PrintItems(v, items[1..]))))
  {
    hide Embed, Print;
    if |items| == 1 {
      assert PrintItems(v, items) == Print(items[0]);
    } else {
      var more := PrintItems(v, items[1..]);
      assert PrintItems(v, items) == Print(items[0]) + (Ascii(", ") + more);
      EmbedConcat(Print(items[0]), Ascii(", ") + more);
      EmbedConcat(Ascii(", "), more);
      EmbedAscii(", ");
      assert Ascii(", ") == [COMMA, 32];
    }
  }

  lemma {:induction false} ItemsRead(v: Payload, items: seq<Payload>, rest: Text)
    requires items != [] && forall i :: 0 <= i < |items| ==> items[i] < v && Clean(items[i])
    ensures ParseItems(Embed(PrintItems(v, items)) + ([CLOSE_ARRAY] + rest)) == Done(items, rest)
    decreases v, 0, |items|
  {
    hide Embed, ParseValue, ParseMembers, PrintItems, JsonScriptPayload, Clean;
    var close := [CLOSE_ARRAY] + rest;
    var s := Embed(PrintItems(v, items)) + close;
    var head := JsonScriptPayload(items[0]);
    ItemsHead(v, items);
    if |items| == 1 {
      assert s == head + close;
      ValueReads(items[0], close);
      assert close[1..] == rest;
      assert items == [items[0]];
    } else {
      var t := Embed(PrintItems(v, items[1..])) + close;
      var u := [COMMA] + ([32] + t);
      assert s == head + u;
      ValueReads(items[0], u);
      assert u[1..] == [32] + t;
      SpaceIsSkipped(t);
      ItemsRead(v, items[1..], rest);
      assert items == [items[0]] + items[1..];
    }
  }

  /** The sorted keys of an object: each of them once. */
  ghost function KeysOf(fields: map<Text, Payload>): (keys: seq<Text>)
    ensures Lists(fields.Keys, keys)
    ensures |keys| <= |fields.Keys|
    ensures Print(Obj(fields)) == [OPEN_OBJECT] + PrintMembers(Obj(fields), keys) + [CLOSE_OBJECT]
  {
    TextOrder();
    var keys := SortedSet(fields.Keys, TextLe);
    DistinctKeysCount(keys, fields.Keys);
    keys
  }

  lemma {:induction false} ObjectReads(v: Payload, fields: map<Text, Payload>, rest: Text)
    requires v == Obj(fields) && Clean(v)
    ensures ParseValue(JsonScriptPayload(v) + rest) == Done(v, rest)
    decreases v, 0, |fields.Keys| + 1
  {
    hide Embed, ParseMembers, PrintMembers, Print, Listed, KeysOf, Clean;
    var keys := KeysOf(fields);
    Around(OPEN_OBJECT, PrintMembers(v, keys), CLOSE_OBJECT, rest);
    var t := Embed(PrintMembers(v, keys)) + ([CLOSE_OBJECT] + rest);
    var s := [OPEN_OBJECT] + t;
    assert JsonScriptPayload(v) + rest == s && s[1..] == t;
    if keys == [] {
      NoMembers(v, keys);
      assert t == [CLOSE_OBJECT] + rest && t[1..] == rest;
    } else {
      MembersRead(v, keys, rest);
      MembersHead(v, keys);
      assert SkipSpace(t) == t;
      AllListed(v, keys);
    }
  }

  lemma NoMembers(v: Payload, keys: seq<Text>)
    requires v.Obj? && keys == [] && Lists(v.fields.Keys, keys)
    ensures v.fields == map[] && Embed(PrintMembers(v, keys)) == []
  {
    EmbedPlain([]);
    assert v.fields.Keys == {};
  }

  lemma AllListed(v: Payload, keys: seq<Text>)
    requires v.Obj? && Lists(v.fields.Keys, keys)
    ensures Listed(v, keys) == v.fields
  {
  }

  lemma {:induction false} DistinctKeysCount(keys: seq<Text>, all: set<Text>)
    requires forall k :: k in keys ==> k in all
    requires forall i, j :: 0 <= i < j < |keys| ==> keys[i] != keys[j]
    ensures |keys| <= |all|
  {
    if keys != [] {
      assert keys[0] in keys;
      forall k | k in keys[1..] ensures k in all - {keys[0]} {
        assert k in keys;
      }
      DistinctKeysCount(keys[1..], all - {keys[0]});
    }
  }

  lemma MembersHead(v: Payload, keys: seq<Text>)
    requires v.Obj? && keys != [] && forall k :: k in keys ==> k in v.fields
    ensures [QUOTE] <= Embed(PrintMembers(v, keys))
  {
    var e := PrintMembers(v, keys);
    assert e == [QUOTE] + e[1..];
    HeadOf(QUOTE, e[1..]);
  }

  /** The members listed by `keys`. */
  ghost function Listed(v: Payload, keys: seq<Text>): map<Text, Payload>
    requires v.Obj? && forall k :: k in keys ==> k in v.fields
  {
    map k | k in keys :: v.fields[k]
  }

  lemma ListedFirst(v: Payload, keys: seq<Text>)
    requires v.Obj? && keys != [] && forall k :: k in keys ==> k in v.fields
    requires forall i, j :: 0 <= i < j < |keys| ==> keys[i] != keys[j]
    ensures keys[0] in keys && forall k :: k in keys[1..] ==> k in keys
    ensures Listed(v, keys) == map[keys[0] := v.fields[keys[0]]] + Listed(v, keys[1..])
    ensures |keys| == 1 ==> Listed(v, keys) == map[keys[0] := v.fields[keys[0]]]
  {
    assert keys == [keys[0]] + keys[1..];
  }

  lemma {:induction false} MembersRead(v: Payload, keys: seq<Text>, rest: Text)
    requires v.Obj? && keys != [] && forall k :: k in keys ==> k in v.fields
    requires forall i, j :: 0 <= i < j < |keys| ==> keys[i] != keys[j]
    requires Clean(v)
    ensures ParseMembers(Embed(PrintMembers(v, keys)) + ([CLOSE_OBJECT] + rest)) == Done(Listed(v, keys), rest)
    decreases v, 0, |keys|
  {
    hide Embed, ParseMembers, ParseValue, PrintMembers, JsonScriptPayload, MemberAhead, Listed;
    ListedFirst(v, keys);
    var close := [CLOSE_OBJECT] + rest;
    if |keys| == 1 {
      ValueReads(v.fields[keys[0]], close);
      LastMemberText(v, keys, close);
      MemberReads(keys[0], v.fields[keys[0]], close);
      assert close[1..] == rest;
    } else {
      var tail := Embed(PrintMembers(v, keys[1..])) + close;
      MembersRead(v, keys[1..], rest);
      ValueReads(v.fields[keys[0]], [COMMA] + ([32] + tail));
      OneMoreMember(v, keys, rest);
    }
  }

  lemma OneMoreMember(v: Payload, keys: seq<Text>, rest: Text)
    requires v.Obj? && |keys| > 1 && keys[0] in v.fields && NoPair(keys[0])
    requires forall k :: k in keys ==> k in v.fields
    requires forall i, j :: 0 <= i < j < |keys| ==> keys[i] != keys[j]
    requires var tail := Embed(PrintMembers(v, keys[1..])) + ([CLOSE_OBJECT] + rest);
             var after := [COMMA] + ([32] + tail);
             && ParseMembers(tail) == Done(Listed(v, keys[1..]), rest)
             && ParseValue(JsonScriptPayload(v.fields[keys[0]]) + after) == Done(v.fields[keys[0]], after)
    ensures ParseMembers(Embed(PrintMembers(v, keys)) + ([CLOSE_OBJECT] + rest)) == Done(Listed(v, keys), rest)
  {
    hide Embed, ParseMembers, ParseValue, PrintMembers, JsonScriptPayload, MemberAhead, Listed, NoPair;
    ListedFirst(v, keys);
    var tail := Embed(PrintMembers(v, keys[1..])) + ([CLOSE_OBJECT] + rest);
    var after := [COMMA] + ([32] + tail);
    MemberText(v, keys, [CLOSE_OBJECT] + rest);
    MemberReads(keys[0], v.fields[keys[0]], after);
    assert after[1..] == [32] + tail;
    SpaceIsSkipped(tail);
  }

  /** The text of one member, up to what follows its value. */
  ghost function MemberAhead(key: Text, value: Payload, after: Text): Text {
    [QUOTE] + (EmbeddedChars(key) + [QUOTE] + ([COLON] + ([32] + (JsonScriptPayload(value) + after))))
  }

  lemma MemberReads(key: Text, value: Payload, after: Text)
    requires NoPair(key) && ParseValue(JsonScriptPayload(value) + after) == Done(value, after)
    requires after != [] && (after[0] == COMMA || after[0] == CLOSE_OBJECT)
    ensures ParseMembers(MemberAhead(key, value, after))
         == if after[0] == CLOSE_OBJECT then Done(map[key := value], after[1..])
            else match ParseMembers(after[1..])
                 case Fail => Fail
                 case Done(more, rest) => Done(map[key := value] + more, rest)
  {
    hide Embed, ParseValue, ParseString, EmbeddedChars, JsonScriptPayload;
    var s := MemberAhead(key, value, after);
    var u := [COLON] + ([32] + (JsonScriptPayload(value) + after));
    assert s[1..] == EmbeddedChars(key) + [QUOTE] + u;
    StringReads(key, u);
    assert u[1..] == [32] + (JsonScriptPayload(value) + after);
    SpaceIsSkipped(JsonScriptPayload(value) + after);
  }

  lemma LastMemberText(v: Payload, keys: seq<Text>, close: Text)
    requires v.Obj? && |keys| == 1 && keys[0] in v.fields
    requires forall k :: k in keys ==> k in v.fields
    ensures Embed(PrintMembers(v, keys)) + close == MemberAhead(keys[0], v.fields[keys[0]], close)
  {
    hide Embed, EmbeddedChars, PrintString, Print;
    var value := v.fields[keys[0]];
    var member := PrintString(keys[0]) + (Ascii(": ") + Print(value));
    assert PrintMembers(v, keys) == member;
    MemberAlone(keys[0], value);
    Regroup(EmbeddedChars(keys[0]), JsonScriptPayload(value), close);
  }

  lemma MemberText(v: Payload, keys: seq<Text>, close: Text)
    requires v.Obj? && |keys| > 1 && keys[0] in v.fields
    requires forall k :: k in keys ==> k in v.fields
    ensures Embed(PrintMembers(v, keys)) + close
         == MemberAhead(keys[0], v.fields[keys[0]],
                        [COMMA] + ([32] + (Embed(PrintMembers(v, keys[1..])) + close)))
  {
    hide Embed, EmbeddedChars, PrintString, Print, PrintMembers;
    var value := v.fields[keys[0]];
    var member := PrintString(keys[0]) + (Ascii(": ") + Print(value));
    var more := PrintMembers(v, keys[1..]);
    ManyMembers(v, keys);
    MemberAlone(keys[0], value);
    CommaThen(member, more, close);
    Regroup(EmbeddedChars(keys[0]), JsonScriptPayload(value), [COMMA] + ([32] + (Embed(more) + close)));
  }

  lemma ManyMembers(v: Payload, keys: seq<Text>)
    requires v.Obj? && |keys| > 1 && keys[0] in v.fields
    requires forall k :: k in keys ==> k in v.fields
    ensures PrintMembers(v, keys)
         == PrintString(keys[0]) + (Ascii(": ") + Print(v.fields[keys[0]]))
            + (Ascii(", ") + PrintMembers(v, keys[1..]))
  {
    hide PrintString, Print;
  }

  lemma CommaThen(member: Text, more: Text, close: Text)
    ensures Embed(member + (Ascii(", ") + more)) + close
         == Embed(member) + ([COMMA] + ([32] + (Embed(more) + close)))
  {
    hide Embed;
    EmbedConcat(member, Ascii(", ") + more);
    EmbedConcat(Ascii(", "), more);
    EmbedAscii(", ");
    assert Ascii(", ") == [COMMA, 32];
  }

  lemma MemberAlone(key: Text, value: Payload)
    ensures Embed(PrintString(key) + (Ascii(": ") + Print(value)))
         == [QUOTE] + EmbeddedChars(key) + [QUOTE] + ([COLON, 32] + JsonScriptPayload(value))
  {
    hide Embed, EmbeddedChars, PrintString, Print;
    EmbedString(key);
    EmbedAscii(": ");
    assert Ascii(": ") == [COLON, 32];
    EmbedConcat(PrintString(key), Ascii(": ") + Print(value));
    EmbedConcat(Ascii(": "), Print(value));
  }

  lemma Regroup(chars: Text, value: Text, after: Text)
    ensures [QUOTE] + chars + [QUOTE] + ([COLON, 32] + value) + after
         == [QUOTE] + (chars + [QUOTE] + ([COLON] + ([32] + (value + after))))
  {
  }

  // ---------------------------------------------------------------- printed text is ASCII

  lemma {:induction false} PrintIsAscii(v: Payload)
    ensures IsAscii(Print(v))
    decreases v, 1, 0
  {
    hide PrintString, PrintInt, PrintItems, PrintMembers, KeysOf;
    match v
    case Null =>
    case Bool(_) =>
    case Int(n) => NumberReads(n, []);
    case Str(s) => EmbedString(s);
    case Arr(items) => ItemsAreAscii(v, items);
    case Obj(fields) =>
      var keys := KeysOf(fields);
      hide Print;
      var members := PrintMembers(v, keys);
      MembersAreAscii(v, keys);
      BracedIsAscii(members);
  }

  lemma BracedIsAscii(members: Text)
    requires IsAscii(members)
    ensures IsAscii([OPEN_OBJECT] + members + [CLOSE_OBJECT])
  {
  }

  lemma {:induction false} ItemsAreAscii(v: Payload, items: seq<Payload>)
    requires forall i :: 0 <= i < |items| ==> items[i] < v
    ensures IsAscii(PrintItems(v, items))
    decreases v, 0, |items|
  {
    if items != [] {
      PrintIsAscii(items[0]);
      ItemsAreAscii(v, items[1..]);
    }
  }

  lemma {:induction false} MembersAreAscii(v: Payload, keys: seq<Text>)
    requires v.Obj? && forall k :: k in keys ==> k in v.fields
    ensures IsAscii(PrintMembers(v, keys))
    decreases v, 0, |keys|
  {
    hide PrintString, Print;
    if keys != [] {
      assert keys[0] in keys;
      EmbedString(keys[0]);
      PrintIsAscii(v.fields[keys[0]]);
      forall k | k in keys[1..] ensures k in v.fields { assert k in keys; }
      MembersAreAscii(v, keys[1..]);
    }
  }

  // ---------------------------------------------------------------- reading never yields a pair

  lemma CharOfAscii(s: Text)
    requires IsAscii(s) && s != [] && ParseChar(s).Done?
    ensures IsAscii(ParseChar(s).rest)
    ensures var c, rest := ParseChar(s).value, ParseChar(s).rest;
            IsHigh(c) && rest != [] && ParseChar(rest).Done? ==> !IsLow(ParseChar(rest).value)
  {
  }

  lemma {:induction false} StringOfAscii(s: Text)
    requires IsAscii(s) && ParseString(s).Done?
    ensures NoPair(ParseString(s).value) && IsAscii(ParseString(s).rest)
    decreases |s|
  {
    if s[0] != QUOTE {
      CharOfAscii(s);
      StringOfAscii(ParseChar(s).rest);
    }
  }

  lemma SkipAscii(s: Text)
    requires IsAscii(s)
    ensures IsAscii(SkipSpace(s))
  {
  }

  lemma {:induction false} ValueOfAscii(s: Text)
    requires IsAscii(s) && ParseValue(s).Done?
    ensures Clean(ParseValue(s).value) && IsAscii(ParseValue(s).rest)
    decreases |s|, 0
  {
    SkipAscii(s);
    var t := SkipSpace(s);
    if t[0] == QUOTE {
      StringOfAscii(t[1..]);
    } else if t[0] == OPEN_ARRAY {
      SkipAscii(t[1..]);
      if ParseItems(t[1..]).Done? {
        ItemsOfAscii(t[1..]);
      }
    } else if t[0] == OPEN_OBJECT {
      SkipAscii(t[1..]);
      if ParseMembers(t[1..]).Done? {
        MembersOfAscii(t[1..]);
      }
    }
  }

  lemma {:induction false} ItemsOfAscii(s: Text)
    requires IsAscii(s) && ParseItems(s).Done?
    ensures IsAscii(ParseItems(s).rest)
    ensures forall i :: 0 <= i < |ParseItems(s).value| ==> Clean(ParseItems(s).value[i])
    decreases |s|, 1
  {
    ValueOfAscii(s);
    var t := SkipSpace(ParseValue(s).rest);
    SkipAscii(ParseValue(s).rest);
    if t[0] != CLOSE_ARRAY {
      ItemsOfAscii(t[1..]);
    }
  }

  lemma {:induction false} MembersOfAscii(s: Text)
    requires IsAscii(s) && ParseMembers(s).Done?
    ensures IsAscii(ParseMembers(s).rest)
    ensures forall k :: k in ParseMembers(s).value ==> NoPair(k) && Clean(ParseMembers(s).value[k])
    decreases |s|, 1
  {
    SkipAscii(s);
    var t := SkipSpace(s);
    StringOfAscii(t[1..]);
    var rest := ParseString(t[1..]).rest;
    SkipAscii(rest);
    var u := SkipSpace(rest);
    ValueOfAscii(u[1..]);
    var rest2 := ParseValue(u[1..]).rest;
    SkipAscii(rest2);
    var w := SkipSpace(rest2);
    if w[0] != CLOSE_OBJECT {
      MembersOfAscii(w[1..]);
    }
  }

  // ---------------------------------------------------------------- main results

  /** No character that could end a script element or start an entity survives. */
  lemma ScriptSafe(v: Payload)
    ensures forall i :: 0 <= i < |JsonScriptPayload(v)| ==>
              JsonScriptPayload(v)[i] !in {LESS, GREATER, AMPERSAND}
              && JsonScriptPayload(v)[i] < 0x80
  {
    PrintIsAscii(v);
    EmbedIsSafe(Print(v));
  }

  /** The embedded text reads back as exactly the payload, unless one of its strings
      holds a high surrogate directly followed by a low one. */
  lemma ReadsBackExactly(v: Payload)
    ensures Parse(JsonScriptPayload(v)) == Done(v, []) <==> Clean(v)
  {
    var e := JsonScriptPayload(v);
    if Clean(v) {
      ValueReads(v, []);
      assert e + [] == e;
    }
    if Parse(e) == Done(v, []) {
      PrintIsAscii(v);
      EmbedIsSafe(Print(v));
      ValueOfAscii(e);
    }
  }

  /** The other side of the condition: two unpaired surrogates come back as one character. */
  lemma AdjacentSurrogatesMerge()
    ensures var v := Str([0xD83D, 0xDE00]);
            Parse(JsonScriptPayload(v)) == Done(Str([0x1F600]), [])
  {
    var v: Payload, w: Payload := Str([0xD83D, 0xDE00]), Str([0x1F600]);
    assert EncodeChars([0xD83D, 0xDE00]) == UnicodeEscape(0xD83D) + UnicodeEscape(0xDE00) by {
      assert [0xD83D, 0xDE00][1..] == [0xDE00];
      assert UnicodeEscape(0xDE00) + [] == UnicodeEscape(0xDE00);
      assert EncodeChars([0xDE00]) == UnicodeEscape(0xDE00);
    }
    assert EncodeChars([0x1F600]) == EncodeChar(0x1F600) + [];
    assert Print(v) == Print(w);
    assert Clean(w);
    ReadsBackExactly(w);
  }
}
