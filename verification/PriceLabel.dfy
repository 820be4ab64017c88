/** Does a public price label name exactly the amount that was charged (hosted/billing.py)?

    Amounts are whole cents.  Letters, digits and word characters are those of ASCII. */
module PriceLabel {
  import opened Json
  import opened Outcomes
  import opened Text

  /** Above this many cents `quantize` leaves the 28 digits of the decimal context. */
  const PRECISION: int := 10_000_000_000_000_000_000_000_000_000

  const CURRENCY_CODES: set<string> := {"aud", "cad", "chf", "eur", "gbp", "jpy", "mxn", "nzd", "sgd", "usd"}

  predicate IsDigit(c: char) { '0' <= c <= '9' }
  predicate IsLetter(c: char) { 'a' <= c <= 'z' || 'A' <= c <= 'Z' }
  predicate IsWord(c: char) { IsDigit(c) || IsLetter(c) || c == '_' }
  predicate IsNumberChar(c: char) { IsDigit(c) || c == ',' }

  predicate IsCurrency(cur: string) {
    |cur| == 3 && forall i :: 0 <= i < 3 ==> 'a' <= cur[i] <= 'z'
  }

  // ------------------------------------------------------- the patterns, as languages

  /** `\b` at position `p`. */
  predicate Boundary(s: string, p: int) {
    (0 < p <= |s| && IsWord(s[p - 1])) != (0 <= p < |s| && IsWord(s[p]))
  }

  /** `\bcur\b` at position `p`, letter case aside. */
  predicate CurrencyAt(s: string, p: int, cur: string) {
    && 0 <= p <= |s| - |cur| && Lower(s[p..p + |cur|]) == cur
    && Boundary(s, p) && Boundary(s, p + |cur|)
  }

  /** A code stands alone: no letter, digit or underscore touches it. */
  lemma CodesStandAlone(s: string, p: int, cur: string)
    requires IsCurrency(cur)
    ensures CurrencyAt(s, p, cur) <==>
      && 0 <= p <= |s| - 3 && Lower(s[p..p + 3]) == cur
      && (p == 0 || !(IsDigit(s[p - 1]) || IsLetter(s[p - 1]) || s[p - 1] == '_'))
      && (p + 3 == |s| || !(IsDigit(s[p + 3]) || IsLetter(s[p + 3]) || s[p + 3] == '_'))
  {
    if 0 <= p <= |s| - 3 && Lower(s[p..p + 3]) == cur {
      assert LowerChar(s[p]) == Lower(s[p..p + 3])[0] == cur[0];
      assert LowerChar(s[p + 2]) == Lower(s[p..p + 3])[2] == cur[2];
      assert IsLetter(s[p]) && IsLetter(s[p + 2]);
    }
  }

  ghost predicate AllSpace(s: string, i: int, j: int) {
    0 <= i <= j <= |s| && forall k :: i <= k < j ==> IsSpace(s[k])
  }

  /** `\d[\d,]*(\.\d{1,2})?` from `i` to `j`, with its fraction starting at `m`. */
  ghost predicate NumberFrom(s: string, i: int, m: int, j: int) {
    && 0 <= i < m <= j <= |s| && IsDigit(s[i])
    && (forall k :: i < k < m ==> IsNumberChar(s[k]))
    && (j == m || (s[m] == '.' && m + 2 <= j <= m + 3 && forall k :: m < k < j ==> IsDigit(s[k])))
  }

  ghost predicate Number(s: string, i: int, j: int) {
    exists m :: NumberFrom(s, i, m, j)
  }

  /** One way in which the currency pattern matches from `i` to `j`, with the number at `a..b`. */
  ghost predicate CurrencyMatch(s: string, cur: string, i: int, j: int, a: int, b: int) {
    || (CurrencyAt(s, i, cur) && AllSpace(s, i + |cur|, a) && Number(s, a, b) && j == b)
    || (i == a && Number(s, a, b) && 0 <= j - |cur| && AllSpace(s, b, j - |cur|) && CurrencyAt(s, j - |cur|, cur))
  }

  ghost predicate DollarMatch(s: string, i: int, j: int, a: int, b: int) {
    0 <= i < |s| && s[i] == '$' && AllSpace(s, i + 1, a) && Number(s, a, b) && j == b
  }

  // ------------------------------------------------------- matching at one position

  function RunEnd(s: string, i: int): (j: int)
    requires 0 <= i <= |s|
    ensures i <= j <= |s|
    ensures forall k :: i <= k < j ==> IsNumberChar(s[k])
    ensures j < |s| ==> !IsNumberChar(s[j])
    decreases |s| - i
  {
    if i < |s| && IsNumberChar(s[i]) then RunEnd(s, i + 1) else i
  }

  /** Where the longest number at `i` ends. */
  function NumberEnd(s: string, i: int): (j: int)
    requires 0 <= i < |s| && IsDigit(s[i])
    ensures i < j <= |s|
  {
    var m := RunEnd(s, i + 1);
    if m + 1 < |s| && s[m] == '.' && IsDigit(s[m + 1]) then
      if m + 2 < |s| && IsDigit(s[m + 2]) then m + 3 else m + 2
    else m
  }

  function SpaceEnd(s: string, i: int): (j: int)
    requires 0 <= i <= |s|
    ensures i <= j <= |s| && AllSpace(s, i, j)
    ensures j < |s| ==> !IsSpace(s[j])
    decreases |s| - i
  {
    if i < |s| && IsSpace(s[i]) then SpaceEnd(s, i + 1) else i
  }

  datatype Match = NoMatch | Match(end: int, a: int, b: int)

  function CurrencyMatchAt(s: string, cur: string, i: int): (m: Match)
    requires 0 <= i < |s| && cur != ""
    ensures m.Match? ==> i < m.end <= |s| && 0 <= m.a < m.b <= |s|
  {
    if CurrencyAt(s, i, cur) then
      var a := SpaceEnd(s, i + |cur|);
      if a < |s| && IsDigit(s[a]) then Match(NumberEnd(s, a), a, NumberEnd(s, a)) else NoMatch
    else if IsDigit(s[i]) then
      var b := NumberEnd(s, i);
      var k := SpaceEnd(s, b);
      if CurrencyAt(s, k, cur) then Match(k + |cur|, i, b) else NoMatch
    else NoMatch
  }

  function DollarMatchAt(s: string, i: int): (m: Match)
    requires 0 <= i < |s|
    ensures m.Match? ==> i < m.end <= |s| && 0 <= m.a < m.b <= |s|
  {
    if s[i] == '$' then
      var a := SpaceEnd(s, i + 1);
      if a < |s| && IsDigit(s[a]) then Match(NumberEnd(s, a), a, NumberEnd(s, a)) else NoMatch
    else NoMatch
  }

  lemma NumberEndIsNumber(s: string, i: int)
    requires 0 <= i < |s| && IsDigit(s[i])
    ensures Number(s, i, NumberEnd(s, i))
  {
    assert NumberFrom(s, i, RunEnd(s, i + 1), NumberEnd(s, i));
  }

  /** Every other number at `i` is shorter, and is followed by a digit, a comma or a full stop. */
  lemma ShorterNumbers(s: string, i: int, j: int)
    requires Number(s, i, j)
    ensures j <= NumberEnd(s, i)
    ensures j < NumberEnd(s, i) ==> IsNumberChar(s[j]) || s[j] == '.'
  {
    var m :| NumberFrom(s, i, m, j);
    var r := RunEnd(s, i + 1);
    assert m <= r;
    if j > m {
      assert !IsNumberChar(s[m]);
    }
  }

  lemma {:induction false} SpacesEndThere(s: string, i: int, a: int)
    requires AllSpace(s, i, a) && a < |s| && !IsSpace(s[a])
    ensures SpaceEnd(s, i) == a
    decreases a - i
  {
    if i < a {
      SpacesEndThere(s, i + 1, a);
    }
  }

  lemma CurrencyStartsWithLetter(s: string, p: int, cur: string)
    requires IsCurrency(cur) && CurrencyAt(s, p, cur)
    ensures 0 <= p < |s| && IsLetter(s[p]) && !IsDigit(s[p]) && !IsSpace(s[p])
  {
    assert s[p..p + |cur|][0] == s[p];
    assert LowerChar(s[p]) == cur[0];
  }

  /** Leftmost and greedy, with all the backtracking a pattern engine may do, comes to
      this: a match at `i` exists exactly when `CurrencyMatchAt` finds one, and the one it
      finds is a match, the longest of those with the currency in front and the only one
      with the currency behind. */
  lemma CurrencyMatchAtIsExact(s: string, cur: string, i: int)
    requires IsCurrency(cur) && 0 <= i < |s|
    ensures var f := CurrencyMatchAt(s, cur, i);
            && (f.Match? ==> CurrencyMatch(s, cur, i, f.end, f.a, f.b))
            && forall j, a, b :: CurrencyMatch(s, cur, i, j, a, b) ==> IsBestMatch(s, f, i, j, a, b)
  {
    var f := CurrencyMatchAt(s, cur, i);
    FoundIsAMatch(s, cur, i);
    hide CurrencyMatchAt, IsBestMatch, CurrencyMatch;
    forall j, a, b | CurrencyMatch(s, cur, i, j, a, b)
      ensures IsBestMatch(s, f, i, j, a, b)
    {
      AnyCurrencyMatch(s, cur, i, j, a, b);
    }
  }

  lemma FoundIsAMatch(s: string, cur: string, i: int)
    requires IsCurrency(cur) && 0 <= i < |s|
    ensures var f := CurrencyMatchAt(s, cur, i);
            f.Match? ==> CurrencyMatch(s, cur, i, f.end, f.a, f.b)
  {
    hide CurrencyAt, Number;
    var f := CurrencyMatchAt(s, cur, i);
    if f.Match? {
      if CurrencyAt(s, i, cur) {
        CurrencyStartsWithLetter(s, i, cur);
      }
      NumberEndIsNumber(s, f.a);
      hide NumberEnd;
    }
  }

  /** No other match at `i` has another number or ends later; one that starts with a digit
      is the match found. */
  ghost predicate IsBestMatch(s: string, f: Match, i: int, j: int, a: int, b: int) {
    && f.Match? && f.a == a && j <= f.end && b <= f.b
    && (0 <= i < |s| && IsDigit(s[i]) ==> j == f.end && b == f.b)
  }

  lemma AnyCurrencyMatch(s: string, cur: string, i: int, j: int, a: int, b: int)
    requires IsCurrency(cur) && 0 <= i < |s| && CurrencyMatch(s, cur, i, j, a, b)
    ensures IsBestMatch(s, CurrencyMatchAt(s, cur, i), i, j, a, b)
  {
    hide CurrencyAt;
    ShorterNumbers(s, a, b);
    DigitIsNotSpace(s[a]);
    hide NumberEnd, Number;
    if CurrencyAt(s, i, cur) {
      CurrencyStartsWithLetter(s, i, cur);
      SpacesEndThere(s, i + |cur|, a);
    } else {
      var k := j - |cur|;
      CurrencyStartsWithLetter(s, k, cur);
      LetterIsNotSpace(s[k]);
      OnlyTheLongestIsFollowed(s, i, b, k);
      SpacesEndThere(s, b, k);
    }
  }

  lemma LetterIsNotSpace(c: char)
    ensures IsLetter(c) ==> !IsSpace(c)
  {
  }

  lemma DigitIsNotSpace(c: char)
    ensures IsDigit(c) || c == ',' || c == '.' ==> !IsSpace(c)
  {
  }

  lemma OnlyTheLongestIsFollowed(s: string, i: int, b: int, k: int)
    requires Number(s, i, b) && AllSpace(s, b, k) && k < |s| && IsLetter(s[k])
    ensures b == NumberEnd(s, i)
  {
    ShorterNumbers(s, i, b);
    assert b < k ==> IsSpace(s[b]);
    DigitIsNotSpace(s[b]);
  }

  lemma DollarMatchAtIsExact(s: string, i: int)
    requires 0 <= i < |s|
    ensures var f := DollarMatchAt(s, i);
            && (f.Match? ==> DollarMatch(s, i, f.end, f.a, f.b))
            && forall j, a, b :: DollarMatch(s, i, j, a, b) ==> f.Match? && f.a == a && j <= f.end && b <= f.b
  {
    var f := DollarMatchAt(s, i);
    if f.Match? {
      NumberEndIsNumber(s, f.a);
    }
    forall j, a, b | DollarMatch(s, i, j, a, b)
      ensures f.Match? && f.a == a && j <= f.end && b <= f.b
    {
      ShorterNumbers(s, a, b);
      DigitIsNotSpace(s[a]);
      SpacesEndThere(s, i + 1, a);
    }
  }

  // ------------------------------------------------------- scanning

  /** The number texts of the successive matches, as `finditer` yields them. */
  function CurrencyScan(s: string, cur: string, i: int): seq<string>
    requires 0 <= i <= |s| && cur != ""
    decreases |s| - i
  {
    if i == |s| then []
    else
      match CurrencyMatchAt(s, cur, i)
      case NoMatch => CurrencyScan(s, cur, i + 1)
      case Match(end, a, b) => [s[a..b]] + CurrencyScan(s, cur, end)
  }

  function DollarScan(s: string, i: int): seq<string>
    requires 0 <= i <= |s|
    decreases |s| - i
  {
    if i == |s| then []
    else
      match DollarMatchAt(s, i)
      case NoMatch => DollarScan(s, i + 1)
      case Match(end, a, b) => [s[a..b]] + DollarScan(s, end)
  }

  /** The digits before the full stop, commas ignored. */
  function Whole(raw: string): int {
    if raw == "" then 0
    else
      var c := raw[|raw| - 1];
      if IsDigit(c) then Whole(raw[..|raw| - 1]) * 10 + (c as int - '0' as int)
      else Whole(raw[..|raw| - 1])
  }

  function PointAt(raw: string): (m: int)
    ensures 0 <= m <= |raw|
    ensures m < |raw| ==> raw[m] == '.'
    ensures forall k :: 0 <= k < m ==> raw[k] != '.'
  {
    if raw == "" then 0 else if raw[0] == '.' then 0 else 1 + PointAt(raw[1..])
  }

  /** The worth of a number text in cents: at most two digits follow its full stop. */
  function CentsOf(raw: string): int {
    var m := PointAt(raw);
    var fraction := if m < |raw| then raw[m + 1..] else "";
    Whole(raw[..m]) * 100
      + (if |fraction| == 0 then 0 else if |fraction| == 1 then Whole(fraction) * 10 else Whole(fraction))
  }

  function DigitValue(c: char): int { c as int - '0' as int }

  /** What a number text is worth: whole units count a hundred cents, the first digit after the
      full stop ten, the second one; commas count nothing. */
  lemma WorthByDigits(units: string, d: char, e: char)
    requires '.' !in units && IsDigit(d) && IsDigit(e)
    ensures CentsOf(units) == 100 * Whole(units)
    ensures CentsOf(units + "." + [d]) == 100 * Whole(units) + 10 * DigitValue(d)
    ensures CentsOf(units + "." + [d, e]) == 100 * Whole(units) + 10 * DigitValue(d) + DigitValue(e)
    ensures Whole(units + [d]) == 10 * Whole(units) + DigitValue(d) && Whole(units + [',']) == Whole(units)
  {
    PointAfter(units, "");
    PointAfter(units, "." + [d]);
    PointAfter(units, "." + [d, e]);
    assert units + "" == units && units[..|units|] == units;
    assert units + "." + [d] == units + ("." + [d]) && units + "." + [d, e] == units + ("." + [d, e]);
    var one, two := units + ("." + [d]), units + ("." + [d, e]);
    assert one[..|units|] == units && one[|units| + 1..] == [d];
    assert two[..|units|] == units && two[|units| + 1..] == [d, e];
    assert [d][..0] == "" && [d, e][..1] == [d];
    assert Whole([d]) == DigitValue(d) && Whole([d, e]) == 10 * DigitValue(d) + DigitValue(e);
    assert (units + [d])[..|units|] == units && (units + [','])[..|units|] == units;
  }

  lemma {:induction false} PointAfter(units: string, rest: string)
    requires '.' !in units && (rest == "" || rest[0] == '.')
    ensures PointAt(units + rest) == |units|
  {
    if units == "" {
      assert units + rest == rest;
    } else {
      assert (units + rest)[1..] == units[1..] + rest && (units + rest)[0] == units[0];
      PointAfter(units[1..], rest);
    }
  }

  /** `_public_decimal_amount` on every token: zero amounts are dropped, and an amount
      beyond the precision raises. */
  method Amounts(tokens: seq<string>) returns (r: Outcome<set<int>>)
    ensures r.Raised? <==> exists t :: t in tokens && CentsOf(t) >= PRECISION
    ensures r.Raised? ==> r.fault.OtherFault?
    ensures r.Returned? ==> forall c :: c in r.value <==> c > 0 && exists t :: t in tokens && CentsOf(t) == c
  {
    var amounts: set<int> := {};
    for n := 0 to |tokens|
      invariant forall t :: t in tokens[..n] ==> CentsOf(t) < PRECISION
      invariant forall c :: c in amounts <==> c > 0 && exists t :: t in tokens[..n] && CentsOf(t) == c
    {
      assert tokens[..n + 1] == tokens[..n] + [tokens[n]];
      var cents := CentsOf(tokens[n]);
      if cents <= 0 {
        continue;
      }
      if cents >= PRECISION {
        assert tokens[n] in tokens;
        return Raised(OtherFault);
      }
      assert tokens[n] in tokens[..n + 1];
      amounts := amounts + {cents};
    }
    assert tokens[..|tokens|] == tokens;
    return Returned(amounts);
  }

  // ------------------------------------------------------- the label

  function FirstWordEnd(s: string): (j: int)
    ensures 0 <= j <= |s|
    ensures forall k :: 0 <= k < j ==> !IsSpace(s[k])
    ensures j < |s| ==> IsSpace(s[j])
  {
    if s == "" || IsSpace(s[0]) then 0 else 1 + FirstWordEnd(s[1..])
  }

  /** `value.split()`. */
  function Words(s: string): seq<string>
    decreases |s|
  {
    if s == "" then []
    else if IsSpace(s[0]) then Words(s[1..])
    else
      var j := FirstWordEnd(s);
      assert j > 0;
      [s[..j]] + Words(s[j..])
  }

  function Joined(words: seq<string>): string {
    if words == [] then "" else if |words| == 1 then words[0] else words[0] + " " + Joined(words[1..])
  }

  function LettersOf(word: string): string {
    if word == "" then "" else (if IsLetter(word[0]) then [word[0]] else "") + LettersOf(word[1..])
  }

  function SeparatorsToSpace(s: string): (r: string)
    ensures |r| == |s|
    ensures forall i :: 0 <= i < |s| ==> r[i] == (if s[i] == '/' || s[i] == '-' then ' ' else s[i])
  {
    seq(|s|, i requires 0 <= i < |s| => if s[i] == '/' || s[i] == '-' then ' ' else s[i])
  }

  /** `_public_currency_markers`. */
  function CurrencyMarkers(s: string): set<string> {
    (set w | w in Words(SeparatorsToSpace(s)) :: LettersOf(Lower(w))) * CURRENCY_CODES
  }

  /** The dollar-sign rule: with a dollar sign in the label, a currency other than USD must
      be named, and USD must not stand beside another one. */
  predicate DollarRule(s: string, cur: string) {
    '$' in s ==>
      var markers := CurrencyMarkers(s);
      if cur == "usd" then markers - {"usd"} == {} else cur in markers
  }

  /** The number texts that count for a currency. */
  function Tokens(s: string, cur: string): seq<string>
    requires cur != ""
  {
    CurrencyScan(s, cur, 0) + (if '$' in s then DollarScan(s, 0) else [])
  }

  ghost predicate Beyond(tokens: seq<string>) {
    exists t :: t in tokens && CentsOf(t) >= PRECISION
  }

  /** The label names this amount in this currency. */
  ghost predicate Names(text: string, cents: int, cur: string)
    requires cur != ""
  {
    var s := Joined(Words(text));
    DollarRule(s, cur) && exists t :: t in Tokens(s, cur) && CentsOf(t) == cents
  }

  /** Reading the label raises: an amount that counts is beyond the decimal precision. */
  ghost predicate Overflows(text: string, cur: string)
    requires cur != ""
  {
    var s := Joined(Words(text));
    Beyond(CurrencyScan(s, cur, 0)) || (DollarRule(s, cur) && Beyond(Tokens(s, cur)))
  }

  /** `_price_label_matches_amount`. */
  method PriceLabelMatchesAmount(text: string, cents: int, cur: string) returns (r: Outcome<bool>)
    requires cents > 0 && IsCurrency(cur)
    ensures r.Raised? <==> Overflows(text, cur)
    ensures r.Returned? ==> (r.value <==> Names(text, cents, cur))
  {
    hide CurrencyMarkers, CurrencyScan, DollarScan, CentsOf, Words, Joined;
    var s := Joined(Words(text));
    var amounts :- Amounts(CurrencyScan(s, cur, 0));
    if '$' in s {
      var markers := CurrencyMarkers(s);
      if cur != "usd" && cur !in markers {
        return Returned(false);
      }
      if cur == "usd" && markers - {"usd"} != {} {
        return Returned(false);
      }
      var dollars :- Amounts(DollarScan(s, 0));
      amounts := amounts + dollars;
    }
    return Returned(cents in amounts);
  }

  /** A positive whole amount in a three-letter lower-case currency. */
  predicate ReceiptFits(amount: Value, currency: Value) {
    amount.Int? && amount.n > 0 && currency.Str? && IsCurrency(currency.s)
  }

  /** `_price_label_matches_checkout_receipt`. */
  method PriceLabelMatchesReceipt(text: string, amount: Value, currency: Value) returns (r: Outcome<bool>)
    ensures r.Raised? <==> ReceiptFits(amount, currency) && Overflows(text, currency.s)
    ensures r.Returned? ==> (r.value <==> ReceiptFits(amount, currency) && Names(text, amount.n, currency.s))
  {
    if !amount.Int? || amount.n <= 0 || !currency.Str? {
      return Returned(false);
    }
    if !IsCurrency(currency.s) {
      return Returned(false);
    }
    r := PriceLabelMatchesAmount(text, amount.n, currency.s);
  }
}
