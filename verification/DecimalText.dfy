/**
 * Exact arithmetic on decimal strings (decimal.ts): what is left of a figure once parts of it are
 * taken away, in its one shortest spelling, and comparison by looking at that spelling.
 */
module DecimalText {
  import opened Options
  import opened Arithmetic
  import opened Texts

  /** `units` at a decimal scale: 12.5 is 125 at scale 1. */
  datatype Exact = Exact(units: int, scale: nat)

  /** A plain decimal: a sign, digits, and after a point more digits. */
  datatype Plain = Plain(negative: bool, whole: string, fraction: string)

  function PointAt(text: string): (at: Option<nat>)
    ensures at.Some? ==> at.value < |text| && text[at.value] == '.' && forall i :: 0 <= i < at.value ==> text[i] != '.'
    ensures at.None? ==> forall i :: 0 <= i < |text| ==> text[i] != '.'
  {
    if text == "" then None
    else if text[0] == '.' then Some(0)
    else
      var rest := PointAt(text[1..]);
      if rest.None? then None else Some(rest.value + 1)
  }

  /** What the pattern for a plain decimal lets through, split at its point. */
  function Split(text: string): (r: Option<Plain>)
    ensures r.Some? ==> r.value.whole != "" && AllDigits(r.value.whole) && AllDigits(r.value.fraction)
  {
    var negative := text != "" && text[0] == '-';
    var body := if negative then text[1..] else text;
    var point := PointAt(body);
    if point.None? then
      if body != "" && AllDigits(body) then Some(Plain(negative, body, "")) else None
    else
      var whole, fraction := body[..point.value], body[point.value + 1..];
      if whole != "" && fraction != "" && AllDigits(whole) && AllDigits(fraction)
      then Some(Plain(negative, whole, fraction)) else None
  }

  function Spell(p: Plain): string {
    (if p.negative then "-" else "") + p.whole + if p.fraction == "" then "" else "." + p.fraction
  }

  function Signed(negative: bool, n: int): int {
    if negative then -n else n
  }

  function ValueOf(p: Plain): Exact
    requires AllDigits(p.whole) && AllDigits(p.fraction)
  {
    SpelledJoined(p.whole, p.fraction);
    var units: int := Spelled(p.whole + p.fraction);
    Exact(Signed(p.negative, units), |p.fraction|)
  }

  function Parse(text: string): Option<Exact> {
    var plain := Split(Trim(text));
    if plain.None? then None else Some(ValueOf(plain.value))
  }

  function Rescale(v: Exact, scale: nat): int
    requires v.scale <= scale
  {
    Times10(v.units, scale - v.scale)
  }

  function StripZeros(digits: string): (kept: string)
    ensures |kept| <= |digits| && (AllDigits(digits) ==> AllDigits(kept))
  {
    if digits != "" && digits[|digits| - 1] == '0' then StripZeros(digits[..|digits| - 1]) else digits
  }

  function WholeOf(n: nat, scale: nat): (whole: string)
    ensures whole != "" && AllDigits(whole)
  {
    var digits := PadStart(Digits(n), scale + 1);
    digits[..|digits| - scale]
  }

  function FractionOf(n: nat, scale: nat): (fraction: string)
    ensures |fraction| == scale && AllDigits(fraction)
  {
    var digits := PadStart(Digits(n), scale + 1);
    digits[|digits| - scale..]
  }

  function PiecesOf(units: int, scale: nat): (p: Plain)
    ensures p.whole != "" && AllDigits(p.whole) && AllDigits(p.fraction) && p.negative == (units < 0)
  {
    Plain(units < 0, WholeOf(Abs(units), scale), StripZeros(FractionOf(Abs(units), scale)))
  }

  function Format(units: int, scale: nat): string {
    var pieces := PiecesOf(units, scale);
    var text := Spell(pieces.(negative := false));
    if pieces.negative && text != "0" then "-" + text else text
  }

  /** `Parse`, except that blank text is `Exact(0, 0)`. */
  function Figure(text: string): Option<Exact> {
    if Trim(text) == "" then Some(Exact(0, 0)) else Parse(text)
  }

  /** `Figure` of every text; a single `None` makes the whole `None`. */
  function Figures(texts: seq<string>): (r: Option<seq<Exact>>)
    ensures r.Some? ==> |r.value| == |texts|
  {
    if texts == [] then Some([])
    else
      var before := Figures(texts[..|texts| - 1]);
      var last := Figure(texts[|texts| - 1]);
      if before.None? || last.None? then None else Some(before.value + [last.value])
  }

  lemma {:induction false} FiguresEach(texts: seq<string>, i: nat)
    requires Figures(texts).Some? && i < |texts|
    ensures Figure(texts[i]) == Some(Figures(texts).value[i])
  {
    if i < |texts| - 1 { FiguresEach(texts[..|texts| - 1], i); }
  }

  lemma {:induction false} FiguresNone(texts: seq<string>)
    ensures Figures(texts).None? ==> exists i :: 0 <= i < |texts| && Figure(texts[i]).None?
  {
    if texts == [] {
    } else {
      var front := texts[..|texts| - 1];
      FiguresNone(front);
      if Figures(front).None? {
        var i :| 0 <= i < |front| && Figure(front[i]).None?;
        assert Figure(texts[i]).None?;
      }
    }
  }

  function MaxScale(values: seq<Exact>): (scale: nat)
    ensures forall i :: 0 <= i < |values| ==> values[i].scale <= scale
  {
    if values == [] then 0
    else
      var before := MaxScale(values[..|values| - 1]);
      if values[|values| - 1].scale > before then values[|values| - 1].scale else before
  }

  /** The first value less each of the others. */
  function Rest(values: seq<Exact>, scale: nat): int
    requires values != [] && forall i :: 0 <= i < |values| ==> values[i].scale <= scale
  {
    if |values| == 1 then Rescale(values[0], scale)
    else Rest(values[..|values| - 1], scale) - Rescale(values[|values| - 1], scale)
  }

  function Subtract(from: string, parts: seq<string>): Option<string> {
    var values := Figures([from] + parts);
    if values.None? then None
    else Some(Format(Rest(values.value, MaxScale(values.value)), MaxScale(values.value)))
  }

  function Compare(a: string, b: string): Option<int> {
    var difference := Subtract(a, [b]);
    if difference.None? then None
    else if difference.value != "" && difference.value[0] == '-' then Some(-1)
    else if difference.value == "0" then Some(0)
    else Some(1)
  }

  // --- Spelling and value ---------------------------------------------------------------------

  /** The shortest spelling: no zeros in front, none after the last decimal, and never "-0". */
  predicate Shortest(p: Plain) {
    && AllDigits(p.whole) && AllDigits(p.fraction) && NoLeadingZero(p.whole)
    && (p.fraction != "" ==> p.fraction[|p.fraction| - 1] != '0')
    && (p.negative ==> ValueOf(p).units != 0)
  }

  /** The same number, whatever the scales. */
  predicate SameNumber(a: Exact, b: Exact) {
    Times10(a.units, b.scale) == Times10(b.units, a.scale)
  }

  lemma {:induction false} PointIn(whole: string, rest: string)
    requires AllDigits(whole)
    ensures PointAt(whole + "." + rest) == Some(|whole|)
  {
    if whole == "" {
      assert whole + "." + rest == "." + rest;
    } else {
      assert (whole + "." + rest)[1..] == whole[1..] + "." + rest;
      PointIn(whole[1..], rest);
    }
  }

  lemma {:induction false} NoPointIn(whole: string)
    requires AllDigits(whole)
    ensures PointAt(whole).None?
  {
    if whole == "" {
    } else {
      NoPointIn(whole[1..]);
    }
  }

  /** What follows the sign. */
  function Body(p: Plain): string {
    p.whole + if p.fraction == "" then "" else "." + p.fraction
  }

  lemma {:induction false} BodySplits(p: Plain)
    requires p.whole != "" && AllDigits(p.whole) && AllDigits(p.fraction)
    ensures PointAt(Body(p)) == if p.fraction == "" then None else Some(|p.whole|)
    ensures p.fraction != "" ==> Body(p)[..|p.whole|] == p.whole && Body(p)[|p.whole| + 1..] == p.fraction
  {
    if p.fraction == "" {
      NoPointIn(p.whole);
      assert Body(p) == p.whole;
    } else {
      PointIn(p.whole, p.fraction);
      assert Body(p) == p.whole + "." + p.fraction;
    }
  }

  /** A plain decimal reads back as it was spelled. */
  lemma {:induction false} SplitSpelled(p: Plain)
    requires p.whole != "" && AllDigits(p.whole) && AllDigits(p.fraction)
    ensures Split(Spell(p)) == Some(p)
  {
    var text := Spell(p);
    assert text == (if p.negative then "-" else "") + Body(p);
    assert Body(p)[0] == p.whole[0];
    assert (if p.negative then text[1..] else text) == Body(p);
    BodySplits(p);
    if p.fraction == "" { assert Body(p) == p.whole; }
  }

  lemma {:induction false} ParseSpelled(p: Plain)
    requires p.whole != "" && AllDigits(p.whole) && AllDigits(p.fraction)
    ensures Parse(Spell(p)) == Some(ValueOf(p))
  {
    var text := Spell(p);
    assert text[|text| - 1] == if p.fraction == "" then p.whole[|p.whole| - 1] else p.fraction[|p.fraction| - 1];
    assert text[0] == if p.negative then '-' else p.whole[0];
    TrimNothing(text);
    SplitSpelled(p);
  }

  lemma {:induction false} Stripped(digits: string)
    requires AllDigits(digits)
    ensures AllDigits(StripZeros(digits)) && |StripZeros(digits)| <= |digits|
    ensures StripZeros(digits) != "" ==> StripZeros(digits)[|StripZeros(digits)| - 1] != '0'
    ensures Spelled(digits) == Times10(Spelled(StripZeros(digits)), |digits| - |StripZeros(digits)|)
  {
    if digits != "" && digits[|digits| - 1] == '0' {
      Stripped(digits[..|digits| - 1]);
    }
  }

  lemma {:induction false} CutAtScale(n: nat, scale: nat)
    ensures AllDigits(WholeOf(n, scale) + FractionOf(n, scale))
    ensures Spelled(WholeOf(n, scale) + FractionOf(n, scale)) == n
    ensures NoLeadingZero(WholeOf(n, scale))
  {
    DigitsSpell(n);
    SpelledPadded(Digits(n), scale + 1);
    var digits := PadStart(Digits(n), scale + 1);
    assert WholeOf(n, scale) + FractionOf(n, scale) == digits;
  }

  /** Leaving out the zeros at the end divides by what they stand for. */
  lemma {:induction false} KeptIsExact(whole: string, fraction: string)
    requires AllDigits(whole) && AllDigits(fraction)
    ensures
      var kept := StripZeros(fraction);
      AllDigits(whole + kept) && AllDigits(whole + fraction)
      && Times10(Spelled(whole + kept), |fraction| - |kept|) == Spelled(whole + fraction)
  {
    var kept := StripZeros(fraction);
    Stripped(fraction);
    SpelledJoined(whole, fraction);
    SpelledJoined(whole, kept);
    Times10Twice(Spelled(whole), |kept|, |fraction| - |kept|);
    Times10Sum(Times10(Spelled(whole), |kept|), Spelled(kept), |fraction| - |kept|);
  }

  lemma {:induction false} PiecesAreShort(units: int, scale: nat)
    ensures var p := PiecesOf(units, scale);
            && NoLeadingZero(p.whole) && |p.fraction| <= scale
            && (p.fraction != "" ==> p.fraction[|p.fraction| - 1] != '0')
  {
    CutAtScale(Abs(units), scale);
    Stripped(FractionOf(Abs(units), scale));
  }

  lemma {:induction false} PiecesSpell(n: nat, scale: nat)
    ensures var whole, kept := WholeOf(n, scale), StripZeros(FractionOf(n, scale));
            |kept| <= scale && AllDigits(whole + kept) && Times10(Spelled(whole + kept), scale - |kept|) == n
  {
    CutAtScale(n, scale);
    KeptIsExact(WholeOf(n, scale), FractionOf(n, scale));
  }

  lemma {:induction false} SignedTimes10(negative: bool, n: nat, k: nat)
    ensures Times10(Signed(negative, n), k) == Signed(negative, Times10(n, k))
    ensures Times10(n, k) != 0 ==> n != 0
  {
    Times10Sum(n, 0, k);
    Times10Zero(k);
  }

  /** What is printed is the number, in its shortest spelling. */
  lemma {:induction false} PiecesAreExact(units: int, scale: nat)
    ensures var p := PiecesOf(units, scale);
            Shortest(p) && ValueOf(p).scale <= scale && Rescale(ValueOf(p), scale) == units
  {
    var p := PiecesOf(units, scale);
    PiecesAreShort(units, scale);
    PiecesSpell(Abs(units), scale);
    SignedTimes10(p.negative, Spelled(p.whole + p.fraction), scale - |p.fraction|);
    assert ValueOf(p) == Exact(Signed(p.negative, Spelled(p.whole + p.fraction)), |p.fraction|);
    assert Signed(p.negative, Abs(units)) == units;
  }

  const ZERO := Plain(false, "0", "")

  lemma {:induction false} ZeroValue(negative: bool)
    ensures ValueOf(ZERO.(negative := negative)) == Exact(0, 0)
  {
    assert ZERO.whole + ZERO.fraction == "0" && Spelled("0") == 0;
  }

  /** Only zero is spelled "0". */
  lemma {:induction false} OnlyZero(p: Plain)
    requires p.whole != "" && AllDigits(p.whole) && AllDigits(p.fraction) && Spell(p.(negative := false)) == "0"
    ensures p == ZERO.(negative := p.negative) && ValueOf(p).units == 0
  {
    SplitSpelled(p.(negative := false));
    SplitSpelled(ZERO);
    assert Spell(ZERO) == "0";
    ZeroValue(p.negative);
  }

  lemma {:induction false} SignFirst(p: Plain)
    ensures Spell(p) == (if p.negative then "-" else "") + Spell(p.(negative := false))
  {
    var rest := if p.fraction == "" then "" else "." + p.fraction;
    assert "-" + p.whole + rest == "-" + (p.whole + rest);
    assert "" + p.whole + rest == p.whole + rest;
  }

  lemma {:induction false} NegativeIsNotZero(p: Plain)
    requires Shortest(p) && p.negative
    ensures Spell(p.(negative := false)) != "0"
  {
    if Spell(p.(negative := false)) == "0" { OnlyZero(p); }
  }

  /** Printing writes the pieces as they are: a negative number is never "0". */
  lemma {:induction false} FormatSpells(units: int, scale: nat)
    ensures Format(units, scale) == Spell(PiecesOf(units, scale))
  {
    var p := PiecesOf(units, scale);
    PiecesAreExact(units, scale);
    SignFirst(p);
    if p.negative { NegativeIsNotZero(p); }
  }

  /** Parsing what was printed gives the same number back, at the smallest scale that holds it. */
  lemma {:induction false} FormatRoundTrip(units: int, scale: nat)
    ensures Parse(Format(units, scale)) == Some(ValueOf(PiecesOf(units, scale)))
    ensures Shortest(PiecesOf(units, scale))
    ensures Parse(Format(units, scale)).value.scale <= scale
    ensures Rescale(Parse(Format(units, scale)).value, scale) == units
  {
    PiecesAreExact(units, scale);
    FormatSpells(units, scale);
    ParseSpelled(PiecesOf(units, scale));
  }

  // --- One shortest spelling ------------------------------------------------------------------

  lemma {:induction false} LastDigit(p: Plain)
    requires Shortest(p) && p.fraction != ""
    ensures ValueOf(p).units % 10 != 0
  {
    var digits := p.whole + p.fraction;
    assert digits[|digits| - 1] == p.fraction[|p.fraction| - 1];
    assert Spelled(digits) % 10 == Digit(digits[|digits| - 1]);
  }

  /** At the smallest scale a number has one pair of units and scale. */
  lemma {:induction false} SameExact(a: Exact, b: Exact)
    requires SameNumber(a, b)
    requires (a.scale > 0 ==> a.units % 10 != 0) && (b.scale > 0 ==> b.units % 10 != 0)
    ensures a == b
  {
    if a.scale < b.scale {
      SameAtScale(a, b);
    } else {
      SameAtScale(b, a);
    }
  }

  lemma {:induction false} SameAtScale(a: Exact, b: Exact)
    requires SameNumber(a, b) && a.scale <= b.scale
    ensures b.units == Times10(a.units, b.scale - a.scale)
    ensures a.scale < b.scale ==> b.units % 10 == 0
  {
    var d := b.scale - a.scale;
    Times10Twice(a.units, d, a.scale);
    Times10Same(Times10(a.units, d), b.units, a.scale);
  }

  lemma {:induction false} SamePieces(p: Plain, q: Plain)
    requires Shortest(p) && Shortest(q) && ValueOf(p) == ValueOf(q)
    ensures p == q
  {
    SpelledJoined(p.whole, p.fraction);
    SpelledJoined(q.whole, q.fraction);
    SpelledBound(p.fraction);
    SpelledBound(q.fraction);
    SameParts(Spelled(p.whole), Spelled(p.fraction), Spelled(q.whole), Spelled(q.fraction), |p.fraction|);
    SpelledDigits(p.whole);
    SpelledDigits(q.whole);
    SameSpelling(p.fraction, q.fraction);
  }

  lemma {:induction false} SameParts(w: nat, f: nat, v: nat, g: nat, n: nat)
    requires f < Pow10(n) && g < Pow10(n) && Times10(w, n) + f == Times10(v, n) + g
    ensures w == v && f == g
  {
    if n == 0 {
    } else {
      assert Times10(w, n - 1) + f / 10 == Times10(v, n - 1) + g / 10;
      SameParts(w, f / 10, v, g / 10, n - 1);
    }
  }

  /** A number has one shortest spelling. */
  lemma {:induction false} OneSpelling(p: Plain, q: Plain)
    requires Shortest(p) && Shortest(q) && SameNumber(ValueOf(p), ValueOf(q))
    ensures Spell(p) == Spell(q)
  {
    if p.fraction != "" { LastDigit(p); }
    if q.fraction != "" { LastDigit(q); }
    SameExact(ValueOf(p), ValueOf(q));
    SamePieces(p, q);
  }

  // --- Subtraction and comparison -------------------------------------------------------------

  /** A text that is the shortest spelling of a number. */
  predicate Spells(text: string, number: Exact) {
    && Parse(text).Some? && SameNumber(Parse(text).value, number)
    && Split(text).Some? && Shortest(Split(text).value) && Spell(Split(text).value) == text
  }

  lemma {:induction false} FormatSpellsNumber(units: int, scale: nat)
    ensures Spells(Format(units, scale), Exact(units, scale))
  {
    FormatRoundTrip(units, scale);
    FormatSpells(units, scale);
    SplitSpelled(PiecesOf(units, scale));
    Unscaled(Parse(Format(units, scale)).value, units, scale);
  }

  lemma {:induction false} SubtractRefuses(from: string, parts: seq<string>)
    ensures Subtract(from, parts).None? <==>
        Figure(from).None? || exists i :: 0 <= i < |parts| && Figure(parts[i]).None?
  {
    var all := [from] + parts;
    assert all[0] == from && forall i :: 0 <= i < |parts| ==> all[i + 1] == parts[i];
    FiguresNone(all);
    if Subtract(from, parts).None? {
      var i :| 0 <= i < |all| && Figure(all[i]).None?;
      if i > 0 { assert Figure(parts[i - 1]).None?; }
    } else {
      forall i | 0 <= i < |all| ensures Figure(all[i]).Some? {
        FiguresEach(all, i);
      }
    }
  }

  /** Exactly the difference, in the one shortest spelling of that number; or one figure is no decimal. */
  lemma {:induction false} SubtractIsExact(from: string, parts: seq<string>)
    ensures Subtract(from, parts).None? <==>
        Figure(from).None? || exists i :: 0 <= i < |parts| && Figure(parts[i]).None?
    ensures Subtract(from, parts).Some? ==>
              var values := Figures([from] + parts).value;
              Spells(Subtract(from, parts).value, Exact(Rest(values, MaxScale(values)), MaxScale(values)))
  {
    SubtractRefuses(from, parts);
    if Subtract(from, parts).Some? {
      var values := Figures([from] + parts).value;
      FormatSpellsNumber(Rest(values, MaxScale(values)), MaxScale(values));
    }
  }

  lemma {:induction false} Unscaled(v: Exact, units: int, scale: nat)
    requires v.scale <= scale && Rescale(v, scale) == units
    ensures SameNumber(v, Exact(units, scale))
  {
    Times10Twice(v.units, scale - v.scale, v.scale);
  }

  /** The sign of `a - b`, both rescaled to the larger of their scales. */
  function Order(a: Exact, b: Exact): int {
    var scale := if a.scale > b.scale then a.scale else b.scale;
    if Rescale(a, scale) < Rescale(b, scale) then -1 else if Rescale(a, scale) == Rescale(b, scale) then 0 else 1
  }

  lemma {:induction false} ZeroIsZero(p: Plain)
    requires Shortest(p) && ValueOf(p).units == 0
    ensures Spell(p) == "0"
  {
    ZeroValue(false);
    OneSpelling(p, ZERO);
  }

  lemma {:induction false} FirstCharacter(p: Plain)
    requires p.whole != "" && AllDigits(p.whole)
    ensures Spell(p) != "" && (Spell(p)[0] == '-' <==> p.negative)
  {
    assert Spell(p)[0] == if p.negative then '-' else p.whole[0];
  }

  lemma {:induction false} ZeroShows(p: Plain)
    requires Shortest(p)
    ensures Spell(p) == "0" <==> ValueOf(p).units == 0
  {
    FirstCharacter(p);
    if Spell(p) == "0" { OnlyZero(p); }
    if ValueOf(p).units == 0 { ZeroIsZero(p); }
  }

  lemma {:induction false} SignShows(units: int, scale: nat)
    ensures var text := Format(units, scale);
            && text != "" && (text[0] == '-' <==> units < 0) && (text == "0" <==> units == 0)
  {
    var p := PiecesOf(units, scale);
    PiecesAreExact(units, scale);
    FormatSpells(units, scale);
    Times10Zero(scale - ValueOf(p).scale);
    Times10Same(ValueOf(p).units, 0, scale - ValueOf(p).scale);
    FirstCharacter(p);
    ZeroShows(p);
  }

  lemma {:induction false} RestOfTwo(a: Exact, b: Exact, scale: nat)
    requires a.scale <= scale && b.scale <= scale
    ensures Rest([a, b], scale) == Rescale(a, scale) - Rescale(b, scale)
  {
    assert [a, b][..1] == [a];
  }

  lemma {:induction false} MaxOfTwo(a: Exact, b: Exact)
    ensures MaxScale([a, b]) == if a.scale > b.scale then a.scale else b.scale
  {
    assert [a, b][..1] == [a];
    assert MaxScale([a]) == a.scale;
  }

  lemma {:induction false} FiguresOfTwo(a: string, b: string)
    ensures Figures([a] + [b])
         == if Figure(a).None? || Figure(b).None? then None else Some([Figure(a).value, Figure(b).value])
  {
    var both := [a] + [b];
    assert both[0] == a && both[1] == b;
    var values := Figures(both);
    FiguresNone(both);
    if values.Some? {
      FiguresEach(both, 0);
      FiguresEach(both, 1);
      assert values.value == [Figure(a).value, Figure(b).value];
    }
  }

  /** Comparing by the look of the difference is comparing the numbers. */
  lemma {:induction false} CompareIsOrder(a: string, b: string)
    ensures Compare(a, b).None? <==> Figure(a).None? || Figure(b).None?
    ensures Compare(a, b).Some? ==> Compare(a, b).value == Order(Figure(a).value, Figure(b).value)
  {
    FiguresOfTwo(a, b);
    if Figure(a).Some? && Figure(b).Some? {
      var x, y := Figure(a).value, Figure(b).value;
      MaxOfTwo(x, y);
      RestOfTwo(x, y, MaxScale([x, y]));
      SignShows(Rest([x, y], MaxScale([x, y])), MaxScale([x, y]));
    }
  }

  /** No text that spells the number is shorter. */
  lemma {:induction false} ShortestIsShortest(p: Plain, q: Plain)
    requires p.whole != "" && AllDigits(p.whole) && AllDigits(p.fraction)
    requires Shortest(q) && SameNumber(ValueOf(p), ValueOf(q))
    ensures |Spell(q)| <= |Spell(p)|
  {
    var v := ValueOf(p);
    var r := PiecesOf(v.units, v.scale);
    PiecesAreExact(v.units, v.scale);
    Unscaled(ValueOf(r), v.units, v.scale);
    SameTwice(ValueOf(r), v, ValueOf(q));
    OneSpelling(r, q);
    var digits := p.whole + p.fraction;
    DigitsNoLonger(digits, Spelled(digits));
  }

  lemma {:induction false} SameTwice(a: Exact, b: Exact, c: Exact)
    requires SameNumber(a, b) && SameNumber(b, c)
    ensures SameNumber(a, c)
  {
    Times10Twice(a.units, b.scale, c.scale);
    Times10Twice(b.units, a.scale, c.scale);
    Times10Twice(b.units, c.scale, a.scale);
    Times10Twice(c.units, b.scale, a.scale);
    Times10Twice(a.units, c.scale, b.scale);
    Times10Twice(c.units, a.scale, b.scale);
    Times10Same(Times10(a.units, c.scale), Times10(c.units, a.scale), b.scale);
  }

  /** A number's digits are no more than those of any other way to write it. */
  lemma {:induction false} DigitsNoLonger(digits: string, n: nat)
    requires digits != "" && AllDigits(digits) && n == Spelled(digits)
    ensures |Digits(n)| <= |digits|
  {
    if n >= 10 { DigitsNoLonger(digits[..|digits| - 1], n / 10); }
  }

  // --- What a figure means ------------------------------------------------------------------------

  /** A text that is a plain decimal, white space around it aside; an empty one is zero. */
  ghost predicate Means(text: string, number: Exact) {
    || (AllSpaces(text) && number == Exact(0, 0))
    || exists before, p, after :: IsPlainDecimal(text, before, p, after, number)
  }

  /** Digits, with a minus before them or not, and digits after a point or none. */
  ghost predicate IsPlainDecimal(text: string, before: string, p: Plain, after: string, number: Exact) {
    && text == before + Spell(p) + after && AllSpaces(before) && AllSpaces(after)
    && p.whole != "" && AllDigits(p.whole) && AllDigits(p.fraction)
    && number.scale == |p.fraction|
    && var digits: int := Spelled(p.whole + p.fraction);
       number.units == if p.negative then -digits else digits
  }

  lemma {:induction false} SpellEnds(p: Plain)
    requires p.whole != "" && AllDigits(p.whole) && AllDigits(p.fraction)
    ensures Spell(p) != "" && !IsSpace(Spell(p)[0]) && !IsSpace(Spell(p)[|Spell(p)| - 1])
  {
    var t := Spell(p);
    if p.fraction != "" { assert t[|t| - 1] == p.fraction[|p.fraction| - 1]; }
    else { assert t[|t| - 1] == p.whole[|p.whole| - 1]; }
    if p.negative { assert t[0] == '-'; } else { assert t[0] == p.whole[0]; }
  }

  lemma {:induction false} TrimAround(before: string, core: string, after: string)
    requires AllSpaces(before) && AllSpaces(after)
    requires core != "" && !IsSpace(core[0]) && !IsSpace(core[|core| - 1])
    ensures Trim(before + core + after) == core
  {
    TrimBefore(before, core + after);
    assert before + core + after == before + (core + after);
    TrimAfter(core, after);
  }

  lemma {:induction false} TrimBefore(before: string, rest: string)
    requires AllSpaces(before) && rest != "" && !IsSpace(rest[0])
    ensures TrimStart(before + rest) == rest
  {
    if before == "" {
      assert before + rest == rest;
    } else {
      assert (before + rest)[1..] == before[1..] + rest;
      TrimBefore(before[1..], rest);
    }
  }

  lemma {:induction false} TrimAfter(core: string, after: string)
    requires AllSpaces(after) && core != "" && !IsSpace(core[|core| - 1])
    ensures TrimEnd(core + after) == core
  {
    if after == "" {
      assert core + after == core;
    } else {
      assert (core + after)[..|core + after| - 1] == core + after[..|after| - 1];
      TrimAfter(core, after[..|after| - 1]);
    }
  }

  lemma {:induction false} SpelledAsSplit(text: string)
    requires Split(text).Some?
    ensures Spell(Split(text).value) == text
  {
    var p := Split(text).value;
    var body := if p.negative then text[1..] else text;
    assert text == (if p.negative then "-" else "") + body;
    if PointAt(body).Some? { AroundPoint(body, PointAt(body).value); }
    assert body == Body(p);
    SignedBody(p);
  }

  lemma {:induction false} AroundPoint(body: string, at: nat)
    requires at < |body| && body[at] == '.'
    ensures body == body[..at] + ("." + body[at + 1..])
  {}

  lemma {:induction false} SignedBody(p: Plain)
    ensures Spell(p) == (if p.negative then "-" else "") + Body(p)
  {}

  /** A figure is read as what it means, and only a text that means something is read. */
  lemma {:induction false} FigureMeans(text: string, number: Exact)
    ensures Figure(text) == Some(number) <==> Means(text, number)
  {
    if Means(text, number) { FigureOf(text, number); }
    if Figure(text) == Some(number) { MeaningOf(text, number); }
  }

  lemma {:induction false} FigureOf(text: string, number: Exact)
    requires Means(text, number)
    ensures Figure(text) == Some(number)
  {
    if AllSpaces(text) && number == Exact(0, 0) {
      var from, to := TrimIs(text);
    } else {
      var before, p, after :| IsPlainDecimal(text, before, p, after, number);
      SpellEnds(p);
      TrimAround(before, Spell(p), after);
      SplitSpelled(p);
    }
  }

  lemma {:induction false} MeaningOf(text: string, number: Exact)
    requires Figure(text) == Some(number)
    ensures Means(text, number)
  {
    var from, to := TrimIs(text);
    if Trim(text) == "" {
      assert forall i :: 0 <= i < |text| ==> IsSpace(text[i]);
    } else {
      SpelledAsSplit(Trim(text));
      PlainInside(text, from, to, Split(Trim(text)).value, number);
    }
  }

  lemma {:induction false} PlainInside(text: string, from: nat, to: nat, p: Plain, number: Exact)
    requires from <= to <= |text| && text[from..to] == Spell(p)
    requires forall i :: 0 <= i < from || to <= i < |text| ==> IsSpace(text[i])
    requires p.whole != "" && AllDigits(p.whole) && AllDigits(p.fraction) && number == ValueOf(p)
    ensures Means(text, number)
  {
    assert text == text[..from] + text[from..to] + text[to..];
    assert IsPlainDecimal(text, text[..from], p, text[to..], number);
  }

  /** Given figures that mean these numbers, the answer is the shortest spelling of their difference. */
  lemma {:induction false} SubtractOf(from: string, parts: seq<string>, values: seq<Exact>)
    requires |values| == |parts| + 1 && Means(from, values[0])
    requires forall i :: 0 <= i < |parts| ==> Means(parts[i], values[i + 1])
    ensures Subtract(from, parts).Some?
    ensures Spells(Subtract(from, parts).value, Exact(Rest(values, MaxScale(values)), MaxScale(values)))
  {
    var all := [from] + parts;
    forall i | 0 <= i < |all| ensures Figure(all[i]) == Some(values[i]) {
      FigureMeans(all[i], values[i]);
    }
    FiguresNone(all);
    forall i | 0 <= i < |all| ensures Figures(all).value[i] == values[i] {
      FiguresEach(all, i);
    }
    assert Figures(all).value == values;
    SubtractIsExact(from, parts);
  }
}
