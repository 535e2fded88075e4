/**
 The texts typed into numeric cells: which decimals are complete, and which number a Cycle Days text means.
 */
module NumericText {
  import opened Options

  predicate IsSpace(c: char) {
    || c == ' ' || '\t' <= c <= '\r' || c == '\U{00A0}' || c == '\U{1680}' || '\U{2000}' <= c <= '\U{200A}'
    || c == '\U{2028}' || c == '\U{2029}' || c == '\U{202F}' || c == '\U{205F}' || c == '\U{3000}'
    || c == '\U{FEFF}'
  }

  function TrimStart(s: string): string {
    if s != [] && IsSpace(s[0]) then TrimStart(s[1..]) else s
  }

  function TrimEnd(s: string): string {
    if s != [] && IsSpace(s[|s| - 1]) then TrimEnd(s[..|s| - 1]) else s
  }

  function Trim(s: string): string {
    TrimEnd(TrimStart(s))
  }

  predicate IsDigit(c: char) {
    '0' <= c <= '9'
  }

  predicate AllDigits(s: string) {
    forall i :: 0 <= i < |s| ==> IsDigit(s[i])
  }

  /** Between one and ten digits, then optionally a point and one or two digits. */
  predicate IsDecimalString(s: string) {
    exists n :: 1 <= n <= 10 && n <= |s| && AllDigits(s[..n])
      && (n == |s| || (s[n] == '.' && 1 <= |s| - n - 1 <= 2 && AllDigits(s[n + 1..])))
  }

  predicate IsValidDecimalDraft(value: string, nullable: bool) {
    if value == "" then nullable else IsDecimalString(Trim(value))
  }

  function DigitValue(c: char): int
    requires IsDigit(c)
  {
    c as int - '0' as int
  }

  /** A whole number between 1 and 31 written with one or two digits. */
  function ParseValidCycleDays(value: string): (r: Option<int>)
    ensures r.Some? ==> 1 <= r.value <= 31
  {
    if 1 <= |value| <= 2 && AllDigits(value) then
      var n := if |value| == 1 then DigitValue(value[0]) else 10 * DigitValue(value[0]) + DigitValue(value[1]);
      if 1 <= n <= 31 then Some(n) else None
    else
      None
  }

  // ---------------------------------------------------------------- Cycle Days: parsing undoes printing

  function DigitChar(d: int): (c: char)
    requires 0 <= d <= 9
    ensures IsDigit(c) && DigitValue(c) == d
  {
    ('0' as int + d) as char
  }

  /** A number below one hundred in decimal notation. */
  function Print(n: int): string
    requires 0 <= n <= 99
  {
    if n < 10 then [DigitChar(n)] else [DigitChar(n / 10), DigitChar(n % 10)]
  }

  /** The texts that mean `n` days: its notation, with a leading zero if it has one digit. */
  predicate MeansDays(text: string, n: int) {
    1 <= n <= 31 && (text == Print(n) || (n < 10 && text == "0" + Print(n)))
  }

  lemma DigitsDetermineChars(c: char, d: char)
    requires IsDigit(c) && IsDigit(d) && DigitValue(c) == DigitValue(d)
    ensures c == d
  {
  }

  lemma PrintedDaysParse(text: string, n: int)
    requires MeansDays(text, n)
    ensures ParseValidCycleDays(text) == Some(n)
  {
    assert DigitValue('0') == 0;
  }

  lemma ParsedDaysAreText(text: string)
    requires ParseValidCycleDays(text).Some?
    ensures MeansDays(text, ParseValidCycleDays(text).value)
  {
    var n := ParseValidCycleDays(text).value;
    if |text| == 1 {
      DigitsDetermineChars(text[0], DigitChar(n));
      assert text == [DigitChar(n)];
    } else {
      var tens, ones := DigitValue(text[0]), DigitValue(text[1]);
      assert n / 10 == tens && n % 10 == ones;
      DigitsDetermineChars(text[0], DigitChar(tens));
      DigitsDetermineChars(text[1], DigitChar(ones));
      assert text == [DigitChar(tens), DigitChar(ones)];
      assert tens == 0 ==> DigitChar(tens) == '0' && text == "0" + [DigitChar(ones)];
    }
  }

  /** A text parses to a number exactly if it is the decimal notation of a number of days. */
  lemma ParseIsInverseOfPrint(text: string, n: int)
    ensures ParseValidCycleDays(text) == Some(n) <==> MeansDays(text, n)
  {
    if MeansDays(text, n) { PrintedDaysParse(text, n); }
    if ParseValidCycleDays(text) == Some(n) { ParsedDaysAreText(text); }
  }

  // ---------------------------------------------------------------- decimals

  predicate Digits(s: string, least: nat, most: nat) {
    least <= |s| <= most && AllDigits(s)
  }

  /** Whole digits, and a fraction of digits after a point or nothing at all. */
  ghost predicate IsNotation(s: string, whole: string, fraction: Option<string>) {
    && Digits(whole, 1, 10) && (fraction.Some? ==> Digits(fraction.value, 1, 2))
    && s == (if fraction.Some? then whole + "." + fraction.value else whole)
  }

  /** A text is a decimal exactly if it is written as one: up to ten digits, and up to two after the point. */
  lemma DecimalIffNotation(s: string)
    ensures IsDecimalString(s) <==> exists whole, fraction :: IsNotation(s, whole, fraction)
  {
    if IsDecimalString(s) {
      var n :| 1 <= n <= 10 && n <= |s| && AllDigits(s[..n])
        && (n == |s| || (s[n] == '.' && 1 <= |s| - n - 1 <= 2 && AllDigits(s[n + 1..])));
      if n == |s| {
        assert s[..n] == s;
        assert IsNotation(s, s, None);
      } else {
        assert s == s[..n] + "." + s[n + 1..];
        assert IsNotation(s, s[..n], Some(s[n + 1..]));
      }
    }
    if whole, fraction :| IsNotation(s, whole, fraction) {
      assert s[..|whole|] == whole;
      if fraction.Some? { assert s[|whole| + 1..] == fraction.value; }
    }
  }

  // ---------------------------------------------------------------- trimming

  predicate Blank(s: string) {
    forall i :: 0 <= i < |s| ==> IsSpace(s[i])
  }

  /** No space at either end. */
  predicate Tight(s: string) {
    s != [] ==> !IsSpace(s[0]) && !IsSpace(s[|s| - 1])
  }

  lemma {:induction false} TrimStartCuts(s: string) returns (front: string)
    ensures Blank(front) && s == front + TrimStart(s)
    ensures TrimStart(s) != [] ==> !IsSpace(TrimStart(s)[0])
  {
    if s != [] && IsSpace(s[0]) {
      var rest := TrimStartCuts(s[1..]);
      front := [s[0]] + rest;
      assert s == [s[0]] + s[1..];
    } else {
      front := [];
    }
  }

  lemma {:induction false} TrimEndCuts(s: string) returns (back: string)
    ensures Blank(back) && s == TrimEnd(s) + back
    ensures TrimEnd(s) != [] ==> !IsSpace(TrimEnd(s)[|TrimEnd(s)| - 1])
  {
    if s != [] && IsSpace(s[|s| - 1]) {
      var rest := TrimEndCuts(s[..|s| - 1]);
      back := rest + [s[|s| - 1]];
      assert s == s[..|s| - 1] + [s[|s| - 1]];
    } else {
      back := [];
    }
  }

  /** Trimming takes spaces off both ends, and nothing else. */
  lemma TrimCuts(s: string) returns (front: string, back: string)
    ensures Blank(front) && Blank(back) && s == front + Trim(s) + back && Tight(Trim(s))
  {
    front := TrimStartCuts(s);
    var middle := TrimStart(s);
    back := TrimEndCuts(middle);
    assert Trim(s) != [] ==> Trim(s)[0] == middle[0];
  }

  lemma TrimKeepsTight(s: string)
    requires Tight(s)
    ensures Trim(s) == s
  {
  }
}
