/** Characters and digits, as the browser's strings have them. */
module Texts {
  /** White space, as `\s` and `trim` know it. */
  predicate IsSpace(c: char) {
    || '\t' <= c <= '\r' || c == ' ' || c == '\U{A0}' || c == '\U{1680}' || '\U{2000}' <= c <= '\U{200A}'
    || c == '\U{2028}' || c == '\U{2029}' || c == '\U{202F}' || c == '\U{205F}' || c == '\U{3000}' || c == '\U{FEFF}'
  }

  function TrimStart(text: string): string {
    if text != "" && IsSpace(text[0]) then TrimStart(text[1..]) else text
  }

  function TrimEnd(text: string): string {
    if text != "" && IsSpace(text[|text| - 1]) then TrimEnd(text[..|text| - 1]) else text
  }

  function Trim(text: string): string {
    TrimEnd(TrimStart(text))
  }

  lemma {:induction false} TrimNothing(text: string)
    requires text != "" ==> !IsSpace(text[0]) && !IsSpace(text[|text| - 1])
    ensures Trim(text) == text
  {}

  /** The white space there is, character by character. */
  lemma {:induction false} SpacesAre(c: char)
    ensures IsSpace(c) <==>
        c in "\t\n\U{0B}\U{0C}\r \U{A0}\U{1680}\U{2000}\U{2001}\U{2002}\U{2003}\U{2004}\U{2005}\U{2006}"
           + "\U{2007}\U{2008}\U{2009}\U{200A}\U{2028}\U{2029}\U{202F}\U{205F}\U{3000}\U{FEFF}"
  {}

  predicate AllSpaces(text: string) {
    forall i :: 0 <= i < |text| ==> IsSpace(text[i])
  }

  /** Trimming takes the white space off both ends, and nothing else. */
  lemma {:induction false} TrimIs(text: string) returns (from: nat, to: nat)
    ensures from <= to <= |text| && Trim(text) == text[from..to]
    ensures forall i :: 0 <= i < from || to <= i < |text| ==> IsSpace(text[i])
    ensures Trim(text) != "" ==> !IsSpace(Trim(text)[0]) && !IsSpace(Trim(text)[|Trim(text)| - 1])
  {
    from := StartIs(text);
    to := EndIs(text[from..]);
    to := to + from;
    assert text[from..][..to - from] == text[from..to];
    forall i | 0 <= i < from || to <= i < |text| ensures IsSpace(text[i]) {
      if i < from { assert text[..from][i] == text[i]; } else { assert text[from..][to - from..][i - to] == text[i]; }
    }
  }

  lemma {:induction false} StartIs(text: string) returns (from: nat)
    ensures from <= |text| && TrimStart(text) == text[from..] && AllSpaces(text[..from])
    ensures from < |text| ==> !IsSpace(text[from])
  {
    if text != "" && IsSpace(text[0]) {
      from := StartIs(text[1..]);
      assert text[..from + 1] == [text[0]] + text[1..][..from];
      from := from + 1;
    } else {
      from := 0;
    }
  }

  lemma {:induction false} EndIs(text: string) returns (to: nat)
    ensures to <= |text| && TrimEnd(text) == text[..to] && AllSpaces(text[to..])
    ensures to > 0 ==> !IsSpace(text[to - 1])
  {
    if text != "" && IsSpace(text[|text| - 1]) {
      var front := text[..|text| - 1];
      to := EndIs(front);
      assert forall i :: 0 <= i < |front| - to ==> text[to..][i] == front[to..][i];
    } else {
      to := |text|;
    }
  }

  predicate IsDigit(c: char) {
    '0' <= c <= '9'
  }

  predicate AllDigits(text: string) {
    forall i :: 0 <= i < |text| ==> IsDigit(text[i])
  }

  function Digit(c: char): nat
    requires IsDigit(c)
  {
    (c - '0') as nat
  }

  function DigitChar(n: nat): (c: char)
    requires n < 10
    ensures IsDigit(c) && Digit(c) == n
  {
    '0' + n as char
  }

  function Pow10(n: nat): (r: nat)
    ensures r > 0
  {
    if n == 0 then 1 else 10 * Pow10(n - 1)
  }

  /** The number a string of digits spells. */
  function Spelled(digits: string): nat
    requires AllDigits(digits)
  {
    if digits == "" then 0 else 10 * Spelled(digits[..|digits| - 1]) + Digit(digits[|digits| - 1])
  }

  /** A number's digits, without leading zeros. */
  function Digits(n: nat): (digits: string)
    ensures digits != "" && AllDigits(digits)
  {
    if n < 10 then [DigitChar(n)] else Digits(n / 10) + [DigitChar(n % 10)]
  }

  predicate NoLeadingZero(digits: string) {
    |digits| == 1 || (digits != "" && digits[0] != '0')
  }

  lemma {:induction false} DigitsSpell(n: nat)
    ensures Spelled(Digits(n)) == n
    ensures NoLeadingZero(Digits(n))
    ensures n > 0 ==> Digits(n)[0] != '0'
  {
    if n >= 10 {
      DigitsSpell(n / 10);
      assert Digits(n)[..|Digits(n)| - 1] == Digits(n / 10);
    }
  }

  /** Digits without leading zeros are the only ones for their number. */
  lemma {:induction false} SpelledDigits(digits: string)
    requires AllDigits(digits) && NoLeadingZero(digits)
    ensures Digits(Spelled(digits)) == digits
    ensures digits[0] != '0' ==> Spelled(digits) > 0
  {
    if |digits| > 1 {
      var front, last := digits[..|digits| - 1], digits[|digits| - 1];
      assert front[0] == digits[0];
      SpelledDigits(front);
      OneMoreDigit(Spelled(front), last);
      assert digits == front + [last];
    }
  }

  lemma {:induction false} OneMoreDigit(n: nat, c: char)
    requires n > 0 && IsDigit(c)
    ensures Digits(10 * n + Digit(c)) == Digits(n) + [c]
  {
    assert (10 * n + Digit(c)) / 10 == n && (10 * n + Digit(c)) % 10 == Digit(c);
  }

  /** A number with `n` zeros written after it. */
  function Times10(a: int, n: nat): int {
    if n == 0 then a else 10 * Times10(a, n - 1)
  }

  lemma {:induction false} Times10Is(a: int, n: nat)
    ensures Times10(a, n) == a * Pow10(n)
  {
    if n == 0 {
    } else {
      Times10Is(a, n - 1);
      assert a * Pow10(n) == 10 * (a * Pow10(n - 1));
    }
  }

  lemma {:induction false} Times10Twice(a: int, m: nat, n: nat)
    ensures Times10(Times10(a, m), n) == Times10(a, m + n)
  {
    if n == 0 {
    } else {
      Times10Twice(a, m, n - 1);
    }
  }

  lemma {:induction false} Times10Sum(a: int, b: int, n: nat)
    ensures Times10(a + b, n) == Times10(a, n) + Times10(b, n)
    ensures Times10(-a, n) == -Times10(a, n)
  {
    if n == 0 {
    } else {
      Times10Sum(a, b, n - 1);
    }
  }

  lemma {:induction false} Times10Same(a: int, b: int, n: nat)
    ensures Times10(a, n) == Times10(b, n) <==> a == b
  {
    if n == 0 {
    } else {
      Times10Same(a, b, n - 1);
    }
  }

  lemma {:induction false} Times10Zero(n: nat)
    ensures Times10(0, n) == 0
  {
    if n == 0 {
    } else {
      Times10Zero(n - 1);
    }
  }

  lemma {:induction false} SpelledJoined(a: string, b: string)
    requires AllDigits(a) && AllDigits(b)
    ensures AllDigits(a + b) && Spelled(a + b) == Times10(Spelled(a), |b|) + Spelled(b)
  {
    if b == "" {
      assert a + b == a;
    } else {
      assert (a + b)[..|a + b| - 1] == a + b[..|b| - 1];
      SpelledJoined(a, b[..|b| - 1]);
    }
  }

  lemma {:induction false} SpelledBound(digits: string)
    requires AllDigits(digits)
    ensures Spelled(digits) < Pow10(|digits|)
  {
    if digits == "" {
    } else {
      SpelledBound(digits[..|digits| - 1]);
    }
  }

  lemma {:induction false} SameLastDigit(m: nat, n: nat, c: char, d: char)
    requires IsDigit(c) && IsDigit(d) && 10 * m + Digit(c) == 10 * n + Digit(d)
    ensures m == n && c == d
  {}

  lemma {:induction false} SameSpelling(a: string, b: string)
    requires AllDigits(a) && AllDigits(b) && |a| == |b| && Spelled(a) == Spelled(b)
    ensures a == b
  {
    if a == "" {
    } else {
      SameLastDigit(Spelled(a[..|a| - 1]), Spelled(b[..|b| - 1]), a[|a| - 1], b[|b| - 1]);
      SameSpelling(a[..|a| - 1], b[..|b| - 1]);
      assert a == a[..|a| - 1] + [a[|a| - 1]] && b == b[..|b| - 1] + [b[|b| - 1]];
    }
  }

  function Zeros(n: nat): (zeros: string)
    ensures |zeros| == n && AllDigits(zeros)
  {
    if n == 0 then "" else Zeros(n - 1) + "0"
  }

  lemma {:induction false} SpelledZeros(n: nat)
    ensures Spelled(Zeros(n)) == 0
  {
    if n == 0 {
    } else {
      SpelledZeros(n - 1);
      assert Zeros(n)[..n - 1] == Zeros(n - 1);
    }
  }

  function PadStart(digits: string, width: nat): (padded: string)
    ensures AllDigits(digits) ==> AllDigits(padded)
    ensures |padded| == if |digits| < width then width else |digits|
  {
    if |digits| < width then Zeros(width - |digits|) + digits else digits
  }

  lemma {:induction false} SpelledPadded(digits: string, width: nat)
    requires AllDigits(digits)
    ensures Spelled(PadStart(digits, width)) == Spelled(digits)
  {
    if |digits| < width {
      SpelledZeros(width - |digits|);
      SpelledJoined(Zeros(width - |digits|), digits);
      Times10Zero(|digits|);
    }
  }
}
