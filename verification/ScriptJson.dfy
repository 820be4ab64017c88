/** JSON text for a raw-text script element (hosted/script_json.py).

    Text is a sequence of code points, as a Python string is, so it may hold an
    unpaired surrogate.  `Print` is `json.dumps(payload, sort_keys=True)` for payloads
    without floating-point numbers, `Embed` is the chain of five replacements, and
    `Parse` is a JSON reader after RFC 8259. */
module ScriptJson {
  import opened Json
  import opened Sorting

  type CodePoint = c: int | 0 <= c < 0x110000
  type Text = seq<CodePoint>
  type Payload = Json<Text>

  function Ascii(s: string): (t: Text)
    requires forall i :: 0 <= i < |s| ==> s[i] < '\U{0080}'
    ensures |t| == |s| && forall i :: 0 <= i < |s| ==> t[i] == s[i] as int
  {
    seq(|s|, i requires 0 <= i < |s| => s[i] as int)
  }

  const QUOTE: CodePoint := '"' as int
  const BACKSLASH: CodePoint := '\\' as int
  const LETTER_U: CodePoint := 'u' as int

  const OPEN_ARRAY: CodePoint := '[' as int
  const CLOSE_ARRAY: CodePoint := ']' as int
  const OPEN_OBJECT: CodePoint := '{' as int
  const CLOSE_OBJECT: CodePoint := '}' as int
  const COMMA: CodePoint := ',' as int
  const COLON: CodePoint := ':' as int
  const FULL_STOP: CodePoint := '.' as int
  const AMPERSAND: CodePoint := '&' as int
  const LESS: CodePoint := '<' as int
  const GREATER: CodePoint := '>' as int

  predicate IsHigh(c: int) { 0xD800 <= c <= 0xDBFF }
  predicate IsLow(c: int) { 0xDC00 <= c <= 0xDFFF }

  // ---------------------------------------------------------------- printing

  function HexDigit(d: int): CodePoint
    requires 0 <= d < 16
  {
    if d < 10 then '0' as int + d else 'a' as int + (d - 10)
  }

  /** `\uXXXX` with lower-case digits. */
  function UnicodeEscape(u: int): Text
    requires 0 <= u < 0x10000
  {
    [BACKSLASH, LETTER_U, HexDigit(u / 0x1000), HexDigit(u / 0x100 % 16), HexDigit(u / 16 % 16), HexDigit(u % 16)]
  }

  /** One character of a string, as the ASCII-only encoder writes it. */
  function EncodeChar(c: CodePoint): Text {
    if c == QUOTE then [BACKSLASH, QUOTE]
    else if c == BACKSLASH then [BACKSLASH, BACKSLASH]
    else if c == 10 then [BACKSLASH, 'n' as int]
    else if c == 13 then [BACKSLASH, 'r' as int]
    else if c == 9 then [BACKSLASH, 't' as int]
    else if c == 12 then [BACKSLASH, 'f' as int]
    else if c == 8 then [BACKSLASH, 'b' as int]
    else if 0x20 <= c <= 0x7E then [c]
    else if c < 0x10000 then UnicodeEscape(c)
    else UnicodeEscape(0xD800 + (c - 0x10000) / 0x400) + UnicodeEscape(0xDC00 + (c - 0x10000) % 0x400)
  }

  function EncodeChars(s: Text): Text {
    if s == [] then [] else EncodeChar(s[0]) + EncodeChars(s[1..])
  }

  function PrintString(s: Text): Text {
    [QUOTE] + EncodeChars(s) + [QUOTE]
  }

  function Digits(n: nat): Text {
    if n < 10 then ['0' as int + n] else Digits(n / 10) + ['0' as int + n % 10]
  }

  function PrintInt(n: int): Text {
    if n < 0 then ['-' as int] + Digits(-n) else Digits(n)
  }

  predicate CodePointLe(a: CodePoint, b: CodePoint) { a <= b }
  predicate TextLe(a: Text, b: Text) { Lex(a, b, CodePointLe) }

  lemma TextOrder()
    ensures TotalOrder(TextLe)
  {
    forall a: Text, b: Text
      ensures TextLe(a, b) || TextLe(b, a)
      ensures TextLe(a, b) && TextLe(b, a) ==> a == b
    {
      LexTotal(a, b, CodePointLe);
    }
    forall a: Text, b: Text, c: Text | TextLe(a, b) && TextLe(b, c)
      ensures TextLe(a, c)
    {
      LexTransitive(a, b, c, CodePointLe);
    }
  }

  ghost function Print(v: Payload): Text
    decreases v, 1, 0
  {
    match v
    case Null => Ascii("null")
    case Bool(b) => if b then Ascii("true") else Ascii("false")
    case Int(n) => PrintInt(n)
    case Str(s) => PrintString(s)
    case Arr(items) => [OPEN_ARRAY] + PrintItems(v, items) + [CLOSE_ARRAY]
    case Obj(fields) =>
      TextOrder();
      [OPEN_OBJECT] + PrintMembers(v, SortedSet(fields.Keys, TextLe)) + [CLOSE_OBJECT]
  }

  ghost function PrintItems(v: Payload, items: seq<Payload>): Text
    requires forall i :: 0 <= i < |items| ==> items[i] < v
    decreases v, 0, |items|
  {
    if items == [] then []
    else Print(items[0]) + (if |items| == 1 then [] else Ascii(", ") + PrintItems(v, items[1..]))
  }

  ghost function PrintMembers(v: Payload, keys: seq<Text>): Text
    requires v.Obj? && forall k :: k in keys ==> k in v.fields
    decreases v, 0, |keys|
  {
    if keys == [] then []
    else
      PrintString(keys[0]) + Ascii(": ") + Print(v.fields[keys[0]])
      + (if |keys| == 1 then [] else Ascii(", ") + PrintMembers(v, keys[1..]))
  }

  // ---------------------------------------------------------------- embedding

  /** `text.replace(one, by)` for a one-character `one`. */
  function Replace(text: Text, one: CodePoint, with: Text): Text {
    if text == [] then []
    else (if text[0] == one then with else [text[0]]) + Replace(text[1..], one, with)
  }

  function Embed(text: Text): Text {
    var t := Replace(text, AMPERSAND, UnicodeEscape(0x26));
    var t := Replace(t, LESS, UnicodeEscape(0x3C));
    var t := Replace(t, GREATER, UnicodeEscape(0x3E));
    var t := Replace(t, 0x2028, UnicodeEscape(0x2028));
    Replace(t, 0x2029, UnicodeEscape(0x2029))
  }

  ghost function JsonScriptPayload(v: Payload): Text {
    Embed(Print(v))
  }

  // ---------------------------------------------------------------- reading

  datatype Parsed<T> = Fail | Done(value: T, rest: Text)

  predicate IsSpace(c: CodePoint) { c == 32 || c == 9 || c == 10 || c == 13 }

  predicate IsDigit(c: CodePoint) { '0' as int <= c <= '9' as int }

  function SkipSpace(s: Text): (r: Text)
    ensures |r| <= |s|
    ensures s == [] || !IsSpace(s[0]) ==> r == s
  {
    if s != [] && IsSpace(s[0]) then SkipSpace(s[1..]) else s
  }

  function HexValue(c: CodePoint): int {
    if IsDigit(c) then c - '0' as int
    else if 'a' as int <= c <= 'f' as int then c - 'a' as int + 10
    else if 'A' as int <= c <= 'F' as int then c - 'A' as int + 10
    else -1
  }

  /** The four hexadecimal digits after `\u`. */
  function ParseHex(s: Text): (p: Parsed<int>)
    ensures p.Done? ==> |s| >= 4 && p.rest == s[4..] && 0 <= p.value < 0x10000
  {
    if |s| < 4 then Fail
    else
      var a, b, c, d := HexValue(s[0]), HexValue(s[1]), HexValue(s[2]), HexValue(s[3]);
      if a < 0 || b < 0 || c < 0 || d < 0 then Fail
      else Done(a * 0x1000 + b * 0x100 + c * 0x10 + d, s[4..])
  }

  /** One character of a string literal: an escape or a literal character.  A high
      surrogate directly followed by an escaped low surrogate is one character. */
  function ParseChar(s: Text): (p: Parsed<CodePoint>)
    requires s != []
    ensures p.Done? ==> |p.rest| < |s|
  {
    if s[0] < 0x20 then Fail
    else if s[0] != BACKSLASH then Done(s[0], s[1..])
    else if |s| == 1 then Fail
    else if s[1] == QUOTE || s[1] == BACKSLASH || s[1] == '/' as int then Done(s[1], s[2..])
    else if s[1] == 'n' as int then Done(10, s[2..])
    else if s[1] == 'r' as int then Done(13, s[2..])
    else if s[1] == 't' as int then Done(9, s[2..])
    else if s[1] == 'f' as int then Done(12, s[2..])
    else if s[1] == 'b' as int then Done(8, s[2..])
    else if s[1] != LETTER_U then Fail
    else
      match ParseHex(s[2..])
      case Fail => Fail
      case Done(u, rest) =>
        if IsHigh(u) && |rest| >= 2 && rest[0] == BACKSLASH && rest[1] == LETTER_U then
          match ParseHex(rest[2..])
          case Fail => Fail
          case Done(w, rest2) =>
            if IsLow(w) then Done(0x10000 + (u - 0xD800) * 0x400 + (w - 0xDC00), rest2)
            else Done(u, rest)
        else Done(u, rest)
  }

  /** A string literal, after its opening quote. */
  function ParseString(s: Text): (p: Parsed<Text>)
    ensures p.Done? ==> |p.rest| < |s|
    decreases |s|
  {
    if s == [] then Fail
    else if s[0] == QUOTE then Done([], s[1..])
    else
      match ParseChar(s)
      case Fail => Fail
      case Done(c, rest) =>
        match ParseString(rest)
        case Fail => Fail
        case Done(cs, rest2) => Done([c] + cs, rest2)
  }

  function DigitRun(s: Text): (n: nat)
    ensures n <= |s|
  {
    if s == [] || !IsDigit(s[0]) then 0 else 1 + DigitRun(s[1..])
  }

  function DigitsValue(s: Text): int {
    if s == [] then 0 else DigitsValue(s[..|s| - 1]) * 10 + (s[|s| - 1] - '0' as int)
  }

  /** Digits without a leading zero.  A fraction or an exponent after them makes a number
      this reader does not know. */
  function ParseNatural(t: Text): (p: Parsed<int>)
    ensures p.Done? ==> |p.rest| < |t|
  {
    if t == [] || !IsDigit(t[0]) then Fail
    else
      var n := if t[0] == '0' as int then 1 else DigitRun(t);
      var rest := t[n..];
      if rest != [] && (rest[0] == FULL_STOP || rest[0] == 'e' as int || rest[0] == 'E' as int) then Fail
      else Done(DigitsValue(t[..n]), rest)
  }

  function ParseNumber(s: Text): (p: Parsed<Payload>)
    ensures p.Done? ==> |p.rest| < |s| && p.value.Int?
  {
    var minus := s != [] && s[0] == '-' as int;
    match ParseNatural(if minus then s[1..] else s)
    case Fail => Fail
    case Done(n, rest) => Done(Int(if minus then -n else n), rest)
  }

  predicate StartsWith(s: Text, p: Text) { |p| <= |s| && s[..|p|] == p }

  function ParseValue(s: Text): (p: Parsed<Payload>)
    ensures p.Done? ==> |p.rest| < |s|
    decreases |s|, 0
  {
    var t := SkipSpace(s);
    if t == [] then Fail
    else if t[0] == QUOTE then
      match ParseString(t[1..])
      case Fail => Fail
      case Done(str, rest) => Done(Str(str), rest)
    else if t[0] == OPEN_ARRAY then
      var u := SkipSpace(t[1..]);
      if u != [] && u[0] == CLOSE_ARRAY then Done(Arr([]), u[1..])
      else
        match ParseItems(t[1..])
        case Fail => Fail
        case Done(items, rest) => Done(Arr(items), rest)
    else if t[0] == OPEN_OBJECT then
      var u := SkipSpace(t[1..]);
      if u != [] && u[0] == CLOSE_OBJECT then Done(Obj(map[]), u[1..])
      else
        match ParseMembers(t[1..])
        case Fail => Fail
        case Done(fields, rest) => Done(Obj(fields), rest)
    else if StartsWith(t, Ascii("null")) then Done(Null, t[4..])
    else if StartsWith(t, Ascii("true")) then Done(Bool(true), t[4..])
    else if StartsWith(t, Ascii("false")) then Done(Bool(false), t[5..])
    else ParseNumber(t)
  }

  /** Array items up to and including the closing bracket. */
  function ParseItems(s: Text): (p: Parsed<seq<Payload>>)
    ensures p.Done? ==> |p.rest| < |s|
    decreases |s|, 1
  {
    match ParseValue(s)
    case Fail => Fail
    case Done(v, rest) =>
      var t := SkipSpace(rest);
      if t == [] then Fail
      else if t[0] == CLOSE_ARRAY then Done([v], t[1..])
      else if t[0] != COMMA then Fail
      else
        match ParseItems(t[1..])
        case Fail => Fail
        case Done(vs, rest2) => Done([v] + vs, rest2)
  }

  /** Object members up to and including the closing brace; a later key wins. */
  function ParseMembers(s: Text): (p: Parsed<map<Text, Payload>>)
    ensures p.Done? ==> |p.rest| < |s|
    decreases |s|, 1
  {
    var t := SkipSpace(s);
    if t == [] || t[0] != QUOTE then Fail
    else
      match ParseString(t[1..])
      case Fail => Fail
      case Done(key, rest) =>
        var u := SkipSpace(rest);
        if u == [] || u[0] != COLON then Fail
        else
          match ParseValue(u[1..])
          case Fail => Fail
          case Done(v, rest2) =>
            var w := SkipSpace(rest2);
            if w == [] then Fail
            else if w[0] == CLOSE_OBJECT then Done(map[key := v], w[1..])
            else if w[0] != COMMA then Fail
            else
              match ParseMembers(w[1..])
              case Fail => Fail
              case Done(more, rest3) => Done(map[key := v] + more, rest3)
  }

  /** A whole document: one value and nothing but space after it. */
  function Parse(s: Text): (p: Parsed<Payload>) {
    match ParseValue(s)
    case Fail => Fail
    case Done(v, rest) => if SkipSpace(rest) == [] then Done(v, []) else Fail
  }
}
