/** Printed amounts and the labels that name them: a label printed from an amount names
    that amount and no other. */
module PricePrinting {
  import opened PriceLabel
  import opened Text

  function DigitChar(d: int): char
    requires 0 <= d < 10
  {
    ('0' as int + d) as char
  }

  function PrintNat(n: nat): string {
    if n < 10 then [DigitChar(n)] else PrintNat(n / 10) + [DigitChar(n % 10)]
  }

  /** `f"{n:,}"`. */
  function Thousands(n: nat): string {
    if n < 1000 then PrintNat(n)
    else Thousands(n / 1000) + "," + [DigitChar(n / 100 % 10), DigitChar(n / 10 % 10), DigitChar(n % 10)]
  }

  function Amount(whole: string, cents: nat): string {
    whole + "." + [DigitChar(cents / 10 % 10), DigitChar(cents % 10)]
  }

  /** `f"${dollars}.{cents:02d}"`. */
  function PrintDollars(cents: nat): string { "$" + Amount(PrintNat(cents / 100), cents % 100) }

  /** `f"USD {dollars:,}.{cents:02d}"`. */
  function PrintUsd(cents: nat): string { "USD " + Amount(Thousands(cents / 100), cents % 100) }

  // ------------------------------------------------------- the worth of printed numbers

  /** A whole number as the patterns read it: digits and commas, a digit first. */
  predicate WholeText(w: string) {
    w != "" && IsDigit(w[0]) && forall i :: 0 <= i < |w| ==> IsNumberChar(w[i])
  }

  lemma WholeAppend(w: string, c: char)
    ensures Whole(w + [c]) == if IsDigit(c) then Whole(w) * 10 + (c as int - '0' as int) else Whole(w)
  {
    assert (w + [c])[..|w|] == w;
  }

  lemma {:induction false} PrintedNat(n: nat)
    ensures WholeText(PrintNat(n)) && Whole(PrintNat(n)) == n
  {
    if n < 10 {
      WholeAppend("", DigitChar(n));
      assert "" + [DigitChar(n)] == [DigitChar(n)];
    } else {
      PrintedNat(n / 10);
      WholeAppend(PrintNat(n / 10), DigitChar(n % 10));
    }
  }

  lemma {:induction false} PrintedThousands(n: nat)
    ensures WholeText(Thousands(n)) && Whole(Thousands(n)) == n
  {
    if n < 1000 {
      PrintedNat(n);
    } else {
      PrintedThousands(n / 1000);
      var w := Thousands(n / 1000);
      var a, b, c := DigitChar(n / 100 % 10), DigitChar(n / 10 % 10), DigitChar(n % 10);
      WholeAppend(w, ',');
      WholeAppend(w + [','], a);
      WholeAppend(w + [','] + [a], b);
      WholeAppend(w + [','] + [a] + [b], c);
      assert Thousands(n) == w + [','] + [a] + [b] + [c];
      ThreeDigits(n);
    }
  }

  lemma ThreeDigits(n: nat)
    ensures ((n / 1000 * 10 + n / 100 % 10) * 10 + n / 10 % 10) * 10 + n % 10 == n
  {
    var a, b := n / 10, n / 100;
    assert a / 10 == b && b / 10 == n / 1000;
  }

  lemma {:induction false} PointAfter(w: string, fraction: string)
    requires forall i :: 0 <= i < |w| ==> w[i] != '.'
    ensures PointAt(w + "." + fraction) == |w|
  {
    if w == "" {
      assert w + "." + fraction == "." + fraction;
    } else {
      assert (w + "." + fraction)[1..] == w[1..] + "." + fraction;
      PointAfter(w[1..], fraction);
    }
  }

  lemma TwoDigitsWorth(x: int, y: int)
    requires 0 <= x < 10 && 0 <= y < 10
    ensures Whole([DigitChar(x), DigitChar(y)]) == x * 10 + y
  {
    WholeAppend("", DigitChar(x));
    WholeAppend([DigitChar(x)], DigitChar(y));
    assert "" + [DigitChar(x)] == [DigitChar(x)];
    assert [DigitChar(x)] + [DigitChar(y)] == [DigitChar(x), DigitChar(y)];
  }

  lemma WorthOfParts(w: string, fraction: string)
    requires WholeText(w) && |fraction| == 2
    ensures CentsOf(w + "." + fraction) == Whole(w) * 100 + Whole(fraction)
  {
    hide Whole, PointAt;
    var raw := w + "." + fraction;
    PointAfter(w, fraction);
    assert raw[..|w|] == w && raw[|w| + 1..] == fraction;
  }

  lemma WorthOfAmount(w: string, cents: nat)
    requires WholeText(w) && cents < 100
    ensures CentsOf(Amount(w, cents)) == Whole(w) * 100 + cents
  {
    hide Whole, CentsOf, WholeText, DigitChar;
    var x, y := cents / 10 % 10, cents % 10;
    TwoDigitsWorth(x, y);
    WorthOfParts(w, [DigitChar(x), DigitChar(y)]);
    assert x * 10 + y == cents;
  }

  // ------------------------------------------------------- scanning printed labels

  lemma RunStopsThere(s: string, i: int, j: int)
    requires 0 <= i <= j < |s| && !IsNumberChar(s[j])
    requires forall k :: i <= k < j ==> IsNumberChar(s[k])
    ensures RunEnd(s, i) == j
    decreases j - i
  {
    if i < j {
      RunStopsThere(s, i + 1, j);
    }
  }

  lemma NumberRunsToTheEnd(before: string, w: string, cents: nat)
    requires WholeText(w) && cents < 100
    ensures var s := before + Amount(w, cents);
            && 0 <= |before| < |s| && IsDigit(s[|before|]) && NumberEnd(s, |before|) == |s|
            && s[|before|..|s|] == Amount(w, cents)
  {
    var s := before + Amount(w, cents);
    var m := |before| + |w|;
    assert s[|before|] == w[0];
    assert forall k :: |before| <= k < m ==> s[k] == w[k - |before|];
    assert s[m] == '.';
    RunStopsThere(s, |before| + 1, m);
    assert |s| == m + 3 && IsDigit(s[m + 1]) && IsDigit(s[m + 2]);
  }

  lemma {:induction false} NoCurrencyNoTokens(s: string, cur: string, i: int)
    requires IsCurrency(cur) && 0 <= i <= |s|
    requires forall k :: 0 <= k < |s| ==> !IsLetter(s[k])
    ensures CurrencyScan(s, cur, i) == []
    decreases |s| - i
  {
    hide NumberEnd, SpaceEnd, CurrencyAt;
    forall p | CurrencyAt(s, p, cur) ensures false {
      CurrencyStartsWithLetter(s, p, cur);
    }
    if i < |s| {
      NoCurrencyNoTokens(s, cur, i + 1);
    }
  }

  lemma {:induction false} OneWord(s: string)
    requires s != "" && forall k :: 0 <= k < |s| ==> !IsSpace(s[k])
    ensures Words(s) == [s]
  {
    var j := FirstWordEnd(s);
    assert j == |s|;
    assert s[..j] == s && s[j..] == "";
  }

  lemma {:induction false} FirstWord(a: string, rest: string)
    requires forall k :: 0 <= k < |a| ==> !IsSpace(a[k])
    ensures FirstWordEnd(a + (" " + rest)) == |a|
  {
    var s := a + (" " + rest);
    if a == "" {
      assert s[0] == ' ';
    } else {
      assert s[0] == a[0] && s[1..] == a[1..] + (" " + rest);
      FirstWord(a[1..], rest);
    }
  }

  lemma FirstWordComesFirst(s: string)
    requires s != "" && !IsSpace(s[0])
    ensures Words(s) == [s[..FirstWordEnd(s)]] + Words(s[FirstWordEnd(s)..])
  {
  }

  lemma SpaceComesBefore(s: string)
    ensures Words(" " + s) == Words(s)
  {
    assert (" " + s)[1..] == s;
  }

  lemma TwoWords(a: string, b: string)
    requires a != "" && b != "" && forall k :: 0 <= k < |a| ==> !IsSpace(a[k])
    requires forall k :: 0 <= k < |b| ==> !IsSpace(b[k])
    ensures Joined(Words(a + (" " + b))) == a + (" " + b)
  {
    var s := a + (" " + b);
    FirstWord(a, b);
    OneWord(b);
    assert s[0] == a[0];
    FirstWordComesFirst(s);
    SpaceComesBefore(b);
    hide Words, FirstWordEnd;
    assert s[..|a|] == a && s[|a|..] == " " + b;
    assert Words(s) == [a, b];
    assert a + " " + b == a + (" " + b);
  }

  lemma {:induction false} NoLettersLeft(word: string)
    requires forall k :: 0 <= k < |word| ==> !IsLetter(word[k])
    ensures LettersOf(word) == ""
  {
    if word != "" {
      NoLettersLeft(word[1..]);
    }
  }

  lemma AmountCharacters(w: string, cents: nat)
    requires WholeText(w) && cents < 100
    ensures forall k :: 0 <= k < |Amount(w, cents)| ==>
              var c := Amount(w, cents)[k];
              !IsSpace(c) && !IsLetter(c) && c != '$' && c != '/' && c != '-' && LowerChar(c) == c
  {
    var s := Amount(w, cents);
    assert forall k :: 0 <= k < |w| ==> s[k] == w[k];
    assert s[|w|] == '.';
  }

  /** The dollar rule for a label without letters and separators. */
  lemma NoMarkers(s: string)
    requires s != ""
    requires forall k :: 0 <= k < |s| ==>
               !IsSpace(s[k]) && !IsLetter(s[k]) && s[k] != '/' && s[k] != '-' && LowerChar(s[k]) == s[k]
    ensures CurrencyMarkers(s) == {}
  {
    assert SeparatorsToSpace(s) == s;
    OneWord(s);
    assert Lower(s) == s;
    NoLettersLeft(s);
    assert Words(SeparatorsToSpace(s)) == [s];
    assert forall w :: w in [s] ==> LettersOf(Lower(w)) == "";
    assert "" !in CURRENCY_CODES;
  }

  lemma DollarTokens(w: string, cents: nat)
    requires WholeText(w) && cents < 100
    ensures var s := "$" + Amount(w, cents);
            && Joined(Words(s)) == s && DollarRule(s, "usd")
            && CurrencyScan(s, "usd", 0) == [] && Tokens(s, "usd") == [Amount(w, cents)]
  {
    var raw := Amount(w, cents);
    var s := "$" + raw;
    AmountCharacters(w, cents);
    assert forall k :: 0 < k < |s| ==> s[k] == raw[k - 1];
    OneWord(s);
    NoMarkers(s);
    NumberRunsToTheEnd("$", w, cents);
    hide NumberEnd, Amount, CurrencyScan, CurrencyMarkers, Words;
    NoCurrencyNoTokens(s, "usd", 0);
    assert SpaceEnd(s, 1) == 1;
    assert DollarMatchAt(s, 0) == Match(|s|, 1, |s|);
    assert DollarScan(s, |s|) == [];
    assert s[0] == '$';
    assert '$' in s;
  }

  lemma UsdInFront(rest: string)
    requires rest != "" && IsDigit(rest[0])
    ensures var s := "USD " + rest;
            CurrencyAt(s, 0, "usd") && SpaceEnd(s, 3) == 4 && s == "USD" + (" " + rest) && s[4] == rest[0]
  {
    var s := "USD " + rest;
    assert s[0..3] == "USD" && s[3] == ' ' && s[4] == rest[0];
    assert Lower("USD") == "usd";
    DigitIsNotSpace(s[4]);
    assert SpaceEnd(s, 4) == 4;
  }

  lemma UsdTokens(w: string, cents: nat)
    requires WholeText(w) && cents < 100
    ensures var s := "USD " + Amount(w, cents);
            && Joined(Words(s)) == s && DollarRule(s, "usd")
            && CurrencyScan(s, "usd", 0) == [Amount(w, cents)] && Tokens(s, "usd") == [Amount(w, cents)]
  {
    var raw := Amount(w, cents);
    var s := "USD " + raw;
    AmountCharacters(w, cents);
    NumberRunsToTheEnd("USD ", w, cents);
    assert raw[0] == w[0];
    UsdInFront(raw);
    assert '$' !in s;
    hide NumberEnd, Amount, Words, CurrencyAt, SpaceEnd, Joined;
    TwoWords("USD", raw);
    assert CurrencyMatchAt(s, "usd", 0) == Match(|s|, 4, |s|);
    assert CurrencyScan(s, "usd", |s|) == [];
  }

  /** A label printed as dollars and cents names that amount and no other. */
  lemma PrintedDollarsNameTheirAmount(cents: nat, other: int)
    requires 0 < cents < PRECISION
    ensures Names(PrintDollars(cents), other, "usd") <==> other == cents
    ensures !Overflows(PrintDollars(cents), "usd")
  {
    var w := PrintNat(cents / 100);
    PrintedNat(cents / 100);
    DollarTokens(w, cents % 100);
    WorthOfAmount(w, cents % 100);
    hide CentsOf, Amount, Tokens, CurrencyScan, DollarRule, Words;
    assert Amount(w, cents % 100) in [Amount(w, cents % 100)];
  }

  /** A label printed in USD with thousands separators names that amount and no other. */
  lemma PrintedUsdNamesItsAmount(cents: nat, other: int)
    requires 0 < cents < PRECISION
    ensures Names(PrintUsd(cents), other, "usd") <==> other == cents
    ensures !Overflows(PrintUsd(cents), "usd")
  {
    var w := Thousands(cents / 100);
    PrintedThousands(cents / 100);
    UsdTokens(w, cents % 100);
    WorthOfAmount(w, cents % 100);
    hide CentsOf, Amount, Tokens, CurrencyScan, DollarRule, Words;
    assert Amount(w, cents % 100) in [Amount(w, cents % 100)];
  }
}
