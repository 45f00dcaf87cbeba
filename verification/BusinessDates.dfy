/**
 * `ShowBusinessDate` and `ParseDateInput` of business-date.ts, for the two languages and their
 * calendars. The source's regular expression becomes functions that try its alternatives in order
 * and return the places where day, month and year begin and end.
 */
module BusinessDates {
  import opened Options
  import opened Texts

  datatype Language = Thai | English

  const OFFSET := 543
  const FIRST_YEAR := 1900
  const LAST_YEAR := 2200

  // --- The calendar ---------------------------------------------------------------------------

  datatype Day = Day(year: nat, month: nat, day: nat)

  predicate IsLeapYear(year: nat) {
    (year % 4 == 0 && year % 100 != 0) || year % 400 == 0
  }

  function DaysInMonth(year: nat, month: nat): nat {
    if month == 2 then if IsLeapYear(year) then 29 else 28
    else if month == 4 || month == 6 || month == 9 || month == 11 then 30
    else 31
  }

  predicate IsReal(d: Day) {
    1 <= d.month <= 12 && 1 <= d.day <= DaysInMonth(d.year, d.month)
  }

  function Iso(d: Day): string {
    PadStart(Digits(d.year), 4) + "-" + PadStart(Digits(d.month), 2) + "-" + PadStart(Digits(d.day), 2)
  }

  function SplitIso(date: string): (d: Option<Day>)
    ensures d.Some? ==> IsReal(d.value)
  {
    if |date| == 10 && date[4] == '-' && date[7] == '-'
       && AllDigits(date[..4]) && AllDigits(date[5..7]) && AllDigits(date[8..]) then
      var d := Day(Spelled(date[..4]), Spelled(date[5..7]), Spelled(date[8..]));
      if IsReal(d) then Some(d) else None
    else None
  }

  // --- Month names ----------------------------------------------------------------------------

  function ShortName(language: Language, month: nat): string
    requires 1 <= month <= 12
  {
    match language
    case Thai => ThaiShort(month)
    case English => EnglishShort(month)
  }

  function ThaiShort(month: nat): string
    requires 1 <= month <= 12
  {
    if month == 1 then "ม.ค." else if month == 2 then "ก.พ." else if month == 3 then "มี.ค."
    else if month == 4 then "เม.ย." else if month == 5 then "พ.ค." else if month == 6 then "มิ.ย."
    else if month == 7 then "ก.ค." else if month == 8 then "ส.ค." else if month == 9 then "ก.ย."
    else if month == 10 then "ต.ค." else if month == 11 then "พ.ย." else "ธ.ค."
  }

  function EnglishShort(month: nat): string
    requires 1 <= month <= 12
  {
    if month == 1 then "Jan" else if month == 2 then "Feb" else if month == 3 then "Mar"
    else if month == 4 then "Apr" else if month == 5 then "May" else if month == 6 then "Jun"
    else if month == 7 then "Jul" else if month == 8 then "Aug" else if month == 9 then "Sep"
    else if month == 10 then "Oct" else if month == 11 then "Nov" else "Dec"
  }

  function Lower(c: char): char {
    if 'A' <= c <= 'Z' then c - 'A' + 'a' else c
  }

  /** The form a month name is looked up in. */
  function MonthKey(text: string): string {
    if text == "" then ""
    else if text[0] == '.' || IsSpace(text[0]) then MonthKey(text[1..])
    else [Lower(text[0])] + MonthKey(text[1..])
  }

  /** English names, short and long, and "sept". */
  function EnglishMonth(key: string): Option<nat> {
    if key == "jan" || key == "january" then Some(1)
    else if key == "feb" || key == "february" then Some(2)
    else if key == "mar" || key == "march" then Some(3)
    else if key == "apr" || key == "april" then Some(4)
    else if key == "may" then Some(5)
    else if key == "jun" || key == "june" then Some(6)
    else if key == "jul" || key == "july" then Some(7)
    else if key == "aug" || key == "august" then Some(8)
    else if key == "sep" || key == "september" || key == "sept" then Some(9)
    else if key == "oct" || key == "october" then Some(10)
    else if key == "nov" || key == "november" then Some(11)
    else if key == "dec" || key == "december" then Some(12)
    else None
  }

  function ThaiMonth(key: string): Option<nat> {
    if key == "มค" || key == "มกราคม" then Some(1)
    else if key == "กพ" || key == "กุมภาพันธ์" then Some(2)
    else if key == "มีค" || key == "มีนาคม" then Some(3)
    else if key == "เมย" || key == "เมษายน" then Some(4)
    else if key == "พค" || key == "พฤษภาคม" then Some(5)
    else if key == "มิย" || key == "มิถุนายน" then Some(6)
    else if key == "กค" || key == "กรกฎาคม" then Some(7)
    else if key == "สค" || key == "สิงหาคม" then Some(8)
    else if key == "กย" || key == "กันยายน" then Some(9)
    else if key == "ตค" || key == "ตุลาคม" then Some(10)
    else if key == "พย" || key == "พฤศจิกายน" then Some(11)
    else if key == "ธค" || key == "ธันวาคม" then Some(12)
    else None
  }

  /** Names of either language. */
  function MonthByName(key: string): Option<nat> {
    var english := EnglishMonth(key);
    if english.Some? then english else ThaiMonth(key)
  }

  // --- Showing --------------------------------------------------------------------------------

  function EraYear(year: nat, language: Language): nat {
    if language == Thai then year + OFFSET else year
  }

  function ShownDay(d: Day, language: Language): string
    requires IsReal(d)
  {
    Digits(d.day) + " " + ShortName(language, d.month) + " " + Digits(EraYear(d.year, language))
  }

  /** `ShownDay` of what `SplitIso` reads, and the text itself when it reads nothing. */
  function ShowBusinessDate(date: string, language: Language): string {
    var d := SplitIso(date);
    if d.None? then date else ShownDay(d.value, language)
  }

  // --- The pattern ----------------------------------------------------------------------------

  predicate IsSeparator(c: char) {
    IsSpace(c) || c == '/' || c == '.' || c == ',' || c == '-'
  }

  /** Where day, month and year end and begin. */
  datatype Found = Found(dayEnd: nat, monthStart: nat, monthEnd: nat, yearStart: nat)
  datatype MonthFound = MonthFound(end: nat, yearStart: nat)

  /** One digit or more, up to the end. */
  predicate YearFrom(t: string, at: nat) {
    at < |t| && forall i :: at <= i < |t| ==> IsDigit(t[i])
  }

  function SeparatorsEnd(t: string, at: nat): (end: nat)
    ensures at <= end && (at <= |t| ==> end <= |t|)
    decreases |t| - at
  {
    if at < |t| && IsSeparator(t[at]) then SeparatorsEnd(t, at + 1) else at
  }

  /** The year after as many separators as there are, or else after one fewer, down to none. */
  function AfterMonth(t: string, from: nat, upTo: nat): (at: Option<nat>)
    requires from <= upTo
    ensures at.Some? ==> from <= at.value <= upTo && YearFrom(t, at.value)
    decreases upTo
  {
    if YearFrom(t, upTo) then Some(upTo) else if upTo == from then None else AfterMonth(t, from, upTo - 1)
  }

  /** A month in words, as few characters as will do. */
  function WordsFrom(t: string, from: nat, end: nat): (m: Option<MonthFound>)
    requires from < end
    ensures m.Some? ==> from < m.value.end <= m.value.yearStart <= |t|
    decreases |t| + 1 - end
  {
    if end > |t| || IsDigit(t[end - 1]) then None
    else
      var year := AfterMonth(t, end, SeparatorsEnd(t, end));
      if year.Some? then Some(MonthFound(end, year.value)) else WordsFrom(t, from, end + 1)
  }

  predicate DigitsAt(t: string, from: nat, n: nat) {
    from + n <= |t| && forall i :: from <= i < from + n ==> IsDigit(t[i])
  }

  /** A month of two digits, or of one, followed by the year. */
  function NumberFrom(t: string, from: nat, n: nat): (m: Option<MonthFound>)
    requires n > 0
    ensures m.Some? ==> from < m.value.end <= m.value.yearStart <= |t| && m.value.end == from + n
  {
    if !DigitsAt(t, from, n) then None
    else
      var year := AfterMonth(t, from + n, SeparatorsEnd(t, from + n));
      if year.Some? then Some(MonthFound(from + n, year.value)) else None
  }

  function MonthFrom(t: string, from: nat): (m: Option<MonthFound>)
    ensures m.Some? ==> from < m.value.end <= m.value.yearStart <= |t|
  {
    var two := NumberFrom(t, from, 2);
    if two.Some? then two
    else
      var one := NumberFrom(t, from, 1);
      if one.Some? then one else WordsFrom(t, from, from + 1)
  }

  function AfterDay(t: string, dayEnd: nat, upTo: nat): (f: Option<Found>)
    requires dayEnd <= upTo
    ensures f.Some? ==> f.value.dayEnd == dayEnd <= f.value.monthStart < f.value.monthEnd <= f.value.yearStart <= |t|
    decreases upTo
  {
    var month := MonthFrom(t, upTo);
    if month.Some? then Some(Found(dayEnd, upTo, month.value.end, month.value.yearStart))
    else if upTo == dayEnd then None
    else AfterDay(t, dayEnd, upTo - 1)
  }

  /** A day of two digits if all the rest then fits, or else of one. */
  function MatchDate(t: string): (f: Option<Found>)
    ensures f.Some? ==> f.value.dayEnd <= f.value.monthStart < f.value.monthEnd <= f.value.yearStart <= |t|
    ensures f.Some? ==> 0 < f.value.dayEnd && DigitsAt(t, 0, f.value.dayEnd)
  {
    var two := if DigitsAt(t, 0, 2) then AfterDay(t, 2, SeparatorsEnd(t, 2)) else None;
    if two.Some? then two
    else if DigitsAt(t, 0, 1) then AfterDay(t, 1, SeparatorsEnd(t, 1))
    else None
  }

  // --- Reading --------------------------------------------------------------------------------

  function WesternChar(c: char): char {
    if '\U{0E50}' <= c <= '\U{0E59}' then c - '\U{0E50}' + '0' else c
  }

  /** Thai digits as Western ones. */
  function Western(text: string): (r: string)
    ensures |r| == |text|
  {
    seq(|text|, i requires 0 <= i < |text| => WesternChar(text[i]))
  }

  datatype Answer =
    | Accepted(iso: string)
    | WrongFormat
    | NoSuchDay
    | GregorianYear(year: nat, buddhistYear: nat)
    | BuddhistYear(year: nat, gregorianYear: int)
    | OutOfRange(year: nat)

  /** Day, month and year at the places `MatchDate` found; the year is not yet a Gregorian one. */
  function Numbers(t: string): Option<Day> {
    var f := MatchDate(t);
    if f.None? || |t| - f.value.yearStart != 4 || !YearFrom(t, f.value.yearStart) then None
    else
      var month := MonthOf(t[f.value.monthStart..f.value.monthEnd]);
      if month.None? then None
      else Some(Day(Spelled(t[f.value.yearStart..]), month.value, Spelled(t[..f.value.dayEnd])))
  }

  /** A month's number, written out or by name. */
  function MonthOf(text: string): Option<nat> {
    if AllDigits(text) then Some(Spelled(text)) else MonthByName(MonthKey(text))
  }

  predicate InRange(year: int) {
    FIRST_YEAR <= year <= LAST_YEAR
  }

  /** A year of the wrong era is refused with the one probably meant, never converted. */
  function Judge(typed: Day, language: Language): Answer {
    if language == Thai && !InRange(typed.year - OFFSET) then
      if InRange(typed.year) then GregorianYear(typed.year, typed.year + OFFSET) else OutOfRange(typed.year)
    else if language == English && !InRange(typed.year) then
      if InRange(typed.year - OFFSET) then BuddhistYear(typed.year, typed.year - OFFSET) else OutOfRange(typed.year)
    else
      var d := typed.(year := if language == Thai then typed.year - OFFSET else typed.year);
      if IsReal(d) then Accepted(Iso(d)) else NoSuchDay
  }

  function ParseDateInput(text: string, language: Language): Answer {
    var t := Western(Trim(text));
    if t == "" then Accepted("")
    else
      var typed := Numbers(t);
      if typed.None? then WrongFormat else Judge(typed.value, language)
  }

  // --- What the pattern depends on ------------------------------------------------------------

  /** Alike character by character: digits where the other has digits, separators where separators. */
  predicate Alike(t: string, u: string) {
    |t| == |u| && forall i :: 0 <= i < |t| ==>
        (IsDigit(t[i]) <==> IsDigit(u[i])) && (IsSeparator(t[i]) <==> IsSeparator(u[i]))
  }

  lemma {:induction false} SameSeparators(t: string, u: string, at: nat)
    requires Alike(t, u)
    ensures SeparatorsEnd(t, at) == SeparatorsEnd(u, at)
    decreases |t| - at
  {
    if at < |t| { SameSeparators(t, u, at + 1); }
  }

  lemma {:induction false} SameAfterMonth(t: string, u: string, from: nat, upTo: nat)
    requires Alike(t, u) && from <= upTo
    ensures AfterMonth(t, from, upTo) == AfterMonth(u, from, upTo)
    decreases upTo
  {
    assert YearFrom(t, upTo) <==> YearFrom(u, upTo);
    if upTo == from {
    } else {
      SameAfterMonth(t, u, from, upTo - 1);
    }
  }

  lemma {:induction false} SameWords(t: string, u: string, from: nat, end: nat)
    requires Alike(t, u) && from < end
    ensures WordsFrom(t, from, end) == WordsFrom(u, from, end)
    decreases |t| + 1 - end
  {
    if end <= |t| {
      SameSeparators(t, u, end);
      SameAfterMonth(t, u, end, SeparatorsEnd(t, end));
      SameWords(t, u, from, end + 1);
    }
  }

  lemma {:induction false} SameNumber(t: string, u: string, from: nat, n: nat)
    requires Alike(t, u) && n > 0
    ensures NumberFrom(t, from, n) == NumberFrom(u, from, n)
  {
    assert DigitsAt(t, from, n) <==> DigitsAt(u, from, n);
    SameSeparators(t, u, from + n);
    SameAfterMonth(t, u, from + n, SeparatorsEnd(t, from + n));
  }

  lemma {:induction false} SameMonth(t: string, u: string, from: nat)
    requires Alike(t, u)
    ensures MonthFrom(t, from) == MonthFrom(u, from)
  {
    SameNumber(t, u, from, 2);
    SameNumber(t, u, from, 1);
    SameWords(t, u, from, from + 1);
  }

  lemma {:induction false} SameAfterDay(t: string, u: string, dayEnd: nat, upTo: nat)
    requires Alike(t, u) && dayEnd <= upTo
    ensures AfterDay(t, dayEnd, upTo) == AfterDay(u, dayEnd, upTo)
    decreases upTo
  {
    SameMonth(t, u, upTo);
    if upTo == dayEnd {
    } else {
      SameAfterDay(t, u, dayEnd, upTo - 1);
    }
  }

  /** Where a date's parts are depends only on which characters are digits and which separators. */
  lemma {:induction false} SameMatch(t: string, u: string)
    requires Alike(t, u)
    ensures MatchDate(t) == MatchDate(u)
  {
    assert DigitsAt(t, 0, 2) <==> DigitsAt(u, 0, 2);
    assert DigitsAt(t, 0, 1) <==> DigitsAt(u, 0, 1);
    SameSeparators(t, u, 2);
    SameSeparators(t, u, 1);
    SameAfterDay(t, u, 2, SeparatorsEnd(t, 2));
    SameAfterDay(t, u, 1, SeparatorsEnd(t, 1));
  }

  // --- Digits of days and years ---------------------------------------------------------------

  lemma {:induction false} FourDigits(year: nat)
    requires 1000 <= year <= 9999
    ensures |Digits(year)| == 4
  {
    assert |Digits(year / 1000)| == 1;
    assert |Digits(year / 100)| == 2 by { assert year / 100 / 10 == year / 1000; }
    assert |Digits(year / 10)| == 3 by { assert year / 10 / 10 == year / 100; }
  }

  lemma {:induction false} UpToTwoDigits(n: nat)
    requires n <= 99
    ensures |Digits(n)| == if n < 10 then 1 else 2
  {}

  // --- Accepted dates are real ----------------------------------------------------------------

  lemma {:induction false} PaddedReads(n: nat, width: nat)
    requires |Digits(n)| <= width
    ensures |PadStart(Digits(n), width)| == width && AllDigits(PadStart(Digits(n), width))
    ensures Spelled(PadStart(Digits(n), width)) == n
  {
    DigitsSpell(n);
    SpelledPadded(Digits(n), width);
  }

  lemma {:induction false} IsoParts(year: string, month: string, day: string)
    requires |year| == 4 && |month| == 2 && |day| == 2
    ensures var iso := year + "-" + month + "-" + day;
            && |iso| == 10 && iso[4] == '-' && iso[7] == '-'
            && iso[..4] == year && iso[5..7] == month && iso[8..] == day
  {}

  lemma {:induction false} IsoSplits(d: Day)
    requires IsReal(d) && d.year <= 9999
    ensures SplitIso(Iso(d)) == Some(d)
  {
    YearFits(d.year);
    UpToTwoDigits(d.month);
    UpToTwoDigits(d.day);
    PaddedReads(d.year, 4);
    PaddedReads(d.month, 2);
    PaddedReads(d.day, 2);
    IsoParts(PadStart(Digits(d.year), 4), PadStart(Digits(d.month), 2), PadStart(Digits(d.day), 2));
  }

  lemma {:induction false} YearFits(year: nat)
    requires year <= 9999
    ensures |Digits(year)| <= 4
  {
    if year >= 1000 { FourDigits(year); } else { assert |Digits(year / 10)| <= 2; }
  }

  /** The Gregorian day a typed one stands for. */
  function Meant(typed: Day, language: Language): Day
    requires language == Thai ==> typed.year >= OFFSET
  {
    typed.(year := if language == Thai then typed.year - OFFSET else typed.year)
  }

  lemma {:induction false} JudgedAccepted(typed: Day, language: Language)
    requires Judge(typed, language).Accepted?
    ensures language == Thai ==> typed.year >= OFFSET
    ensures IsReal(Meant(typed, language)) && InRange(Meant(typed, language).year)
    ensures Judge(typed, language).iso == Iso(Meant(typed, language))
  {}

  lemma {:induction false} ParsedIsJudged(text: string, language: Language)
    requires Trim(text) != ""
    ensures
      var typed := Numbers(Western(Trim(text)));
      ParseDateInput(text, language) == if typed.None? then WrongFormat else Judge(typed.value, language)
  {
    assert |Western(Trim(text))| == |Trim(text)|;
  }

  /** What is accepted, other than no date at all, is a day the calendar has, in a year business dates fall in. */
  lemma {:induction false} AcceptedIsReal(text: string, language: Language)
    requires Trim(text) != ""
    ensures
      var answer := ParseDateInput(text, language);
      answer.Accepted? ==>
        && SplitIso(answer.iso).Some? && InRange(SplitIso(answer.iso).value.year)
        && Iso(SplitIso(answer.iso).value) == answer.iso
  {
    if ParseDateInput(text, language).Accepted? {
      ParsedIsJudged(text, language);
      var typed := Numbers(Western(Trim(text))).value;
      JudgedAccepted(typed, language);
      IsoSplits(Meant(typed, language));
    }
  }

  /** No date is accepted in both languages: no year belongs to both eras. */
  lemma {:induction false} AcceptedInOneLanguage(text: string)
    requires Trim(text) != ""
    ensures !(ParseDateInput(text, Thai).Accepted? && ParseDateInput(text, English).Accepted?)
  {}

  // --- Retyping the year that was suggested ---------------------------------------------------

  /** The text as it was typed, with another year at its end. */
  function Retyped(text: string, year: nat): string
    requires |Trim(text)| >= 4
  {
    var t := Western(Trim(text));
    t[..|t| - 4] + Digits(year)
  }

  /** With another year of four digits at the end, a text is alike character by character. */
  lemma {:induction false} RetypedAlike(t: string, u: string, year: string)
    requires |t| >= 4 && YearFrom(t, |t| - 4) && |year| == 4 && AllDigits(year)
    requires u == t[..|t| - 4] + year
    ensures Alike(t, u) && YearFrom(u, |u| - 4) && u[|u| - 4..] == year
  {
    assert forall i :: 0 <= i < |t| - 4 ==> u[i] == t[i];
    assert forall i :: |t| - 4 <= i < |t| ==> u[i] == year[i - (|t| - 4)];
    forall i | 0 <= i < |t|
      ensures (IsDigit(t[i]) <==> IsDigit(u[i])) && (IsSeparator(t[i]) <==> IsSeparator(u[i]))
    {
      if i >= |t| - 4 { assert IsDigit(t[i]) && IsDigit(u[i]); }
    }
  }

  lemma {:induction false} NumbersRetyped(t: string, u: string, year: nat)
    requires Numbers(t).Some? && 1000 <= year <= 9999
    requires |t| >= 4 && u == t[..|t| - 4] + Digits(year)
    ensures Numbers(u) == Some(Numbers(t).value.(year := year))
  {
    FourDigits(year);
    DigitsSpell(year);
    RetypedAlike(t, u, Digits(year));
    SameMatch(t, u);
    var f := MatchDate(t).value;
    assert u[..|t| - 4] == t[..|t| - 4];
    SamePart(t, u, |t| - 4, 0, f.dayEnd);
    SamePart(t, u, |t| - 4, f.monthStart, f.monthEnd);
    assert u[..f.dayEnd] == u[0..f.dayEnd] && t[..f.dayEnd] == t[0..f.dayEnd];
  }

  lemma {:induction false} SamePart(t: string, u: string, n: nat, i: nat, j: nat)
    requires i <= j <= n <= |t| && n <= |u| && t[..n] == u[..n]
    ensures t[i..j] == u[i..j]
  {
    assert t[..n][i..j] == t[i..j] && u[..n][i..j] == u[i..j];
  }

  lemma {:induction false} ParsedNumbers(t: string, typed: Day, language: Language)
    requires t != "" && Western(Trim(t)) == t && Numbers(t) == Some(typed)
    ensures ParseDateInput(t, language) == Judge(typed, language)
  {}

  /** A day's answer once its year is accepted. */
  function Taken(d: Day): Answer {
    if IsReal(d) then Accepted(Iso(d)) else NoSuchDay
  }

  predicate IsEraRefusal(answer: Answer) {
    answer.GregorianYear? || answer.BuddhistYear?
  }

  /** The year a refusal says was probably meant. */
  function Suggested(answer: Answer): int
    requires IsEraRefusal(answer)
  {
    if answer.GregorianYear? then answer.buddhistYear else answer.gregorianYear
  }

  lemma {:induction false} JudgedSuggestion(typed: Day, language: Language)
    requires IsEraRefusal(Judge(typed, language))
    ensures 1000 <= Suggested(Judge(typed, language)) <= 9999
    ensures
      var year := Suggested(Judge(typed, language));
      Judge(typed.(year := year), language) == Taken(Meant(typed.(year := year), language))
  {}

  lemma {:induction false} RetypedAnswer(t: string, u: string, typed: Day, language: Language, year: nat)
    requires Western(t) == t && Numbers(t) == Some(typed) && 1000 <= year <= 9999
    requires |t| >= 4 && u == t[..|t| - 4] + Digits(year)
    ensures ParseDateInput(u, language) == Judge(typed.(year := year), language)
  {
    NumbersRetyped(t, u, year);
    FourDigits(year);
    RetypedIsPlain(t, u, year);
    ParsedNumbers(u, typed.(year := year), language);
  }

  lemma {:induction false} RefusedIsJudged(text: string, language: Language)
    requires IsEraRefusal(ParseDateInput(text, language))
    ensures var t := Western(Trim(text));
            Numbers(t).Some? && ParseDateInput(text, language) == Judge(Numbers(t).value, language)
    ensures |Trim(text)| >= 4 && Western(Western(Trim(text))) == Western(Trim(text))
  {
    assert Trim(text) != "";
    ParsedIsJudged(text, language);
  }

  /** The suggested year is never refused for its year again: only the day may turn out not to exist. */
  lemma {:induction false} SuggestedYearIsTaken(text: string, language: Language)
    ensures
      var answer := ParseDateInput(text, language);
      IsEraRefusal(answer) ==>
        && |Trim(text)| >= 4 && Suggested(answer) >= OFFSET && Numbers(Western(Trim(text))).Some?
        && ParseDateInput(Retyped(text, Suggested(answer)), language)
           == Taken(Meant(Numbers(Western(Trim(text))).value.(year := Suggested(answer)), language))
  {
    var answer := ParseDateInput(text, language);
    if IsEraRefusal(answer) {
      var t := Western(Trim(text));
      RefusedIsJudged(text, language);
      var typed := Numbers(t).value;
      JudgedSuggestion(typed, language);
      RetypedAnswer(t, Retyped(text, Suggested(answer)), typed, language, Suggested(answer));
    }
  }

  lemma {:induction false} RetypedIsPlain(t: string, u: string, year: nat)
    requires MatchDate(t).Some? && |t| - MatchDate(t).value.yearStart == 4 && Western(t) == t
    requires |Digits(year)| == 4 && u == t[..|t| - 4] + Digits(year)
    ensures Western(Trim(u)) == u
  {
    assert u[0] == t[0] && IsDigit(t[0]);
    assert IsDigit(u[|u| - 1]) by { assert u[|u| - 1] == Digits(year)[3]; }
    TrimNothing(u);
    forall i | 0 <= i < |u| ensures WesternChar(u[i]) == u[i] {
      if i < |t| - 4 {
        assert Western(t)[i] == t[i];
      } else {
        assert IsDigit(u[i]) by { assert u[i] == Digits(year)[i - (|t| - 4)]; }
      }
    }
  }

  // --- Reading back what is shown -------------------------------------------------------------

  /** A month's short name without the dots at its end: what the pattern takes for the month. */
  function Core(language: Language, month: nat): string
    requires 1 <= month <= 12
  {
    var name := ShortName(language, month);
    if language == Thai then name[..|name| - 1] else name
  }

  predicate WordLike(core: string) {
    && core != "" && !IsSeparator(core[0]) && !IsSeparator(core[|core| - 1])
    && forall i :: 0 <= i < |core| ==> !IsDigit(core[i]) && WesternChar(core[i]) == core[i]
  }

  lemma {:induction false} ThaiNames(month: nat)
    requires 1 <= month <= 12
    ensures WordLike(Core(Thai, month)) && ThaiShort(month) == Core(Thai, month) + "."
    ensures MonthByName(MonthKey(Core(Thai, month))) == Some(month)
  {
    ThaiCores(month);
    ThaiWords(month);
    if month <= 2 { ThaiKeys1(month); } else if month <= 4 { ThaiKeys2(month); }
    else if month <= 6 { ThaiKeys3(month); } else if month <= 8 { ThaiKeys4(month); }
    else if month == 9 { ThaiKeys5(month); } else if month == 10 { ThaiKeys6(month); }
    else if month == 11 { ThaiKeys7(month); } else { ThaiKeys8(month); }
  }

  /** No English name begins with a Thai letter. */
  lemma {:induction false} NotEnglish(key: string)
    requires key != "" && key[0] > 'z'
    ensures EnglishMonth(key).None?
  {}

  /** Short names without the dot at their end. */
  function ThaiCore(month: nat): string
    requires 1 <= month <= 12
  {
    if month == 1 then "ม.ค" else if month == 2 then "ก.พ" else if month == 3 then "มี.ค"
    else if month == 4 then "เม.ย" else if month == 5 then "พ.ค" else if month == 6 then "มิ.ย"
    else if month == 7 then "ก.ค" else if month == 8 then "ส.ค" else if month == 9 then "ก.ย"
    else if month == 10 then "ต.ค" else if month == 11 then "พ.ย" else "ธ.ค"
  }

  lemma {:induction false} ThaiCores(month: nat)
    requires 1 <= month <= 12
    ensures Core(Thai, month) == ThaiCore(month) && ThaiShort(month) == ThaiCore(month) + "."
  {}

  lemma {:induction false} ThaiWords(month: nat)
    requires 1 <= month <= 12
    ensures WordLike(ThaiCore(month))
  {}

  lemma {:induction false} ThaiKeys1(month: nat)
    requires 1 <= month <= 2
    ensures MonthByName(MonthKey(ThaiCore(month))) == Some(month)
  {
    if month == 1 {
      assert MonthKey("ม.ค") == "มค";
      NotEnglish("มค");
    } else {
      assert MonthKey("ก.พ") == "กพ";
      NotEnglish("กพ");
    }
  }

  lemma {:induction false} ThaiKeys2(month: nat)
    requires 3 <= month <= 4
    ensures MonthByName(MonthKey(ThaiCore(month))) == Some(month)
  {
    if month == 3 {
      assert MonthKey("มี.ค") == "มีค";
      NotEnglish("มีค");
    } else {
      assert MonthKey("เม.ย") == "เมย";
      NotEnglish("เมย");
    }
  }

  lemma {:induction false} ThaiKeys3(month: nat)
    requires 5 <= month <= 6
    ensures MonthByName(MonthKey(ThaiCore(month))) == Some(month)
  {
    if month == 5 {
      assert MonthKey("พ.ค") == "พค";
      NotEnglish("พค");
    } else {
      assert MonthKey("มิ.ย") == "มิย";
      NotEnglish("มิย");
    }
  }

  lemma {:induction false} ThaiKeys4(month: nat)
    requires 7 <= month <= 8
    ensures MonthByName(MonthKey(ThaiCore(month))) == Some(month)
  {
    if month == 7 {
      assert MonthKey("ก.ค") == "กค";
      NotEnglish("กค");
    } else {
      assert MonthKey("ส.ค") == "สค";
      NotEnglish("สค");
    }
  }

  lemma {:induction false} ThaiKeys5(month: nat)
    requires month == 9
    ensures MonthByName(MonthKey(ThaiCore(month))) == Some(month)
  {
    assert MonthKey("ก.ย") == "กย";
    NotEnglish("กย");
  }

  lemma {:induction false} ThaiKeys6(month: nat)
    requires month == 10
    ensures MonthByName(MonthKey(ThaiCore(month))) == Some(month)
  {
    assert MonthKey("ต.ค") == "ตค";
    NotEnglish("ตค");
  }

  lemma {:induction false} ThaiKeys7(month: nat)
    requires month == 11
    ensures MonthByName(MonthKey(ThaiCore(month))) == Some(month)
  {
    assert MonthKey("พ.ย") == "พย";
    NotEnglish("พย");
  }

  lemma {:induction false} ThaiKeys8(month: nat)
    requires month == 12
    ensures MonthByName(MonthKey(ThaiCore(month))) == Some(month)
  {
    assert MonthKey("ธ.ค") == "ธค";
    NotEnglish("ธค");
  }

  lemma {:induction false} EnglishNames(month: nat)
    requires 1 <= month <= 12
    ensures WordLike(Core(English, month))
    ensures MonthByName(MonthKey(Core(English, month))) == Some(month)
  {
    EnglishWords(month);
    if month <= 2 { EnglishKeys1(month); } else if month <= 4 { EnglishKeys2(month); }
    else if month <= 6 { EnglishKeys3(month); } else if month <= 8 { EnglishKeys4(month); }
    else if month == 9 { EnglishKeys5(month); } else if month == 10 { EnglishKeys6(month); }
    else if month == 11 { EnglishKeys7(month); } else { EnglishKeys8(month); }
  }

  lemma {:induction false} EnglishWords(month: nat)
    requires 1 <= month <= 12
    ensures WordLike(EnglishShort(month))
  {}

  lemma {:induction false} EnglishKeys1(month: nat)
    requires 1 <= month <= 2
    ensures MonthByName(MonthKey(EnglishShort(month))) == Some(month)
  {
    if month == 1 {
      assert MonthKey("Jan") == "jan";
    } else {
      assert MonthKey("Feb") == "feb";
    }
  }

  lemma {:induction false} EnglishKeys2(month: nat)
    requires 3 <= month <= 4
    ensures MonthByName(MonthKey(EnglishShort(month))) == Some(month)
  {
    if month == 3 {
      assert MonthKey("Mar") == "mar";
    } else {
      assert MonthKey("Apr") == "apr";
    }
  }

  lemma {:induction false} EnglishKeys3(month: nat)
    requires 5 <= month <= 6
    ensures MonthByName(MonthKey(EnglishShort(month))) == Some(month)
  {
    if month == 5 {
      assert MonthKey("May") == "may";
    } else {
      assert MonthKey("Jun") == "jun";
    }
  }

  lemma {:induction false} EnglishKeys4(month: nat)
    requires 7 <= month <= 8
    ensures MonthByName(MonthKey(EnglishShort(month))) == Some(month)
  {
    if month == 7 {
      assert MonthKey("Jul") == "jul";
    } else {
      assert MonthKey("Aug") == "aug";
    }
  }

  lemma {:induction false} EnglishKeys5(month: nat)
    requires month == 9
    ensures MonthByName(MonthKey(EnglishShort(month))) == Some(month)
  {
    assert MonthKey("Sep") == "sep";
  }

  lemma {:induction false} EnglishKeys6(month: nat)
    requires month == 10
    ensures MonthByName(MonthKey(EnglishShort(month))) == Some(month)
  {
    assert MonthKey("Oct") == "oct";
  }

  lemma {:induction false} EnglishKeys7(month: nat)
    requires month == 11
    ensures MonthByName(MonthKey(EnglishShort(month))) == Some(month)
  {
    assert MonthKey("Nov") == "nov";
  }

  lemma {:induction false} EnglishKeys8(month: nat)
    requires month == 12
    ensures MonthByName(MonthKey(EnglishShort(month))) == Some(month)
  {
    assert MonthKey("Dec") == "dec";
  }

  /** A text made of a day, a space, a month in words, separators, and a year. */
  predicate Laid(t: string, dayEnd: nat, monthEnd: nat, yearStart: nat) {
    && 0 < dayEnd <= 2 && dayEnd + 1 < monthEnd < yearStart < |t|
    && DigitsAt(t, 0, dayEnd) && t[dayEnd] == ' '
    && (forall i :: dayEnd < i < monthEnd ==> !IsDigit(t[i]))
    && !IsSeparator(t[dayEnd + 1]) && !IsSeparator(t[monthEnd - 1])
    && (forall i :: monthEnd <= i < yearStart ==> IsSeparator(t[i]) && !IsDigit(t[i]))
    && YearFrom(t, yearStart)
  }

  lemma {:induction false} SeparatorsRun(t: string, at: nat, end: nat)
    requires at <= end <= |t| && forall i :: at <= i < end ==> IsSeparator(t[i])
    requires end < |t| ==> !IsSeparator(t[end])
    ensures SeparatorsEnd(t, at) == end
    decreases end - at
  {
    if at < end { SeparatorsRun(t, at + 1, end); }
  }

  lemma {:induction false} NoYearBefore(t: string, from: nat, upTo: nat, word: nat)
    requires from <= upTo <= word < |t| && !IsDigit(t[word])
    ensures AfterMonth(t, from, upTo).None?
    decreases upTo
  {
    assert !YearFrom(t, upTo);
    if from == upTo {
    } else {
      NoYearBefore(t, from, upTo - 1, word);
    }
  }

  lemma {:induction false} SeparatorsStop(t: string, at: nat, stop: nat)
    requires at <= stop < |t| && !IsSeparator(t[stop])
    ensures SeparatorsEnd(t, at) <= stop
    decreases stop - at
  {
    if at < stop { SeparatorsStop(t, at + 1, stop); }
  }

  /** Read lazily, the month ends where its last letter is: before that no year follows. */
  lemma {:induction false} WordsLaid(t: string, dayEnd: nat, monthEnd: nat, yearStart: nat, end: nat)
    requires Laid(t, dayEnd, monthEnd, yearStart) && dayEnd + 1 < end <= monthEnd
    ensures WordsFrom(t, dayEnd + 1, end) == Some(MonthFound(monthEnd, yearStart))
    decreases monthEnd - end
  {
    assert !IsDigit(t[end - 1]);
    if end < monthEnd {
      SeparatorsStop(t, end, monthEnd - 1);
      NoYearBefore(t, end, SeparatorsEnd(t, end), monthEnd - 1);
      WordsLaid(t, dayEnd, monthEnd, yearStart, end + 1);
    } else {
      assert IsDigit(t[yearStart]);
      SeparatorsRun(t, monthEnd, yearStart);
    }
  }

  lemma {:induction false} MatchLaid(t: string, dayEnd: nat, monthEnd: nat, yearStart: nat)
    requires Laid(t, dayEnd, monthEnd, yearStart)
    ensures MatchDate(t) == Some(Found(dayEnd, dayEnd + 1, monthEnd, yearStart))
  {
    SeparatorsRun(t, dayEnd, dayEnd + 1);
    assert !IsDigit(t[dayEnd + 1]);
    WordsLaid(t, dayEnd, monthEnd, yearStart, dayEnd + 2);
    assert NumberFrom(t, dayEnd + 1, 2).None? && NumberFrom(t, dayEnd + 1, 1).None?;
    assert dayEnd == 1 ==> !DigitsAt(t, 0, 2);
  }

  /** A date that is laid out so reads as its numbers. */
  lemma {:induction false} NumbersLaid(day: nat, core: string, tail: string, year: nat, month: nat)
    requires 1 <= day <= 31 && WordLike(core) && 1000 <= year <= 9999
    requires tail != "" && forall i :: 0 <= i < |tail| ==> IsSeparator(tail[i]) && !IsDigit(tail[i])
    requires MonthByName(MonthKey(core)) == Some(month)
    ensures Numbers(Digits(day) + " " + core + tail + Digits(year)) == Some(Day(year, month, day))
  {
    var t := Digits(day) + " " + core + tail + Digits(year);
    FourDigits(year);
    UpToTwoDigits(day);
    DigitsSpell(day);
    DigitsSpell(year);
    var dayEnd := |Digits(day)|;
    var monthEnd := dayEnd + 1 + |core|;
    var yearStart := monthEnd + |tail|;
    assert t[..dayEnd] == Digits(day) && t[dayEnd + 1..monthEnd] == core && t[yearStart..] == Digits(year);
    LaidOut(Digits(day), core, tail, Digits(year));
    MatchLaid(t, dayEnd, monthEnd, yearStart);
    assert !AllDigits(core);
  }

  lemma {:induction false} LaidOut(day: string, core: string, tail: string, year: string)
    requires 0 < |day| <= 2 && AllDigits(day) && year != "" && AllDigits(year) && WordLike(core)
    requires tail != "" && forall i :: 0 <= i < |tail| ==> IsSeparator(tail[i]) && !IsDigit(tail[i])
    ensures Laid(day + " " + core + tail + year, |day|, |day| + 1 + |core|, |day| + 1 + |core| + |tail|)
  {
    var t := day + " " + core + tail + year;
    var monthEnd := |day| + 1 + |core|;
    var yearStart := monthEnd + |tail|;
    assert forall i :: 0 <= i < |day| ==> t[i] == day[i];
    assert forall i :: |day| < i < monthEnd ==> t[i] == core[i - |day| - 1];
    assert forall i :: monthEnd <= i < yearStart ==> t[i] == tail[i - monthEnd];
    assert forall i :: yearStart <= i < |t| ==> t[i] == year[i - yearStart];
  }

  lemma {:induction false} ShownIsPlain(day: string, core: string, tail: string, year: string)
    requires 0 < |day| && AllDigits(day) && year != "" && AllDigits(year) && WordLike(core)
    requires forall i :: 0 <= i < |tail| ==> tail[i] == ' ' || tail[i] == '.'
    ensures Western(Trim(day + " " + core + tail + year)) == day + " " + core + tail + year
  {
    var t := day + " " + core + tail + year;
    assert t[0] == day[0] && t[|t| - 1] == year[|year| - 1];
    TrimNothing(t);
    var monthEnd := |day| + 1 + |core|;
    var yearStart := monthEnd + |tail|;
    assert forall i :: 0 <= i < |day| ==> t[i] == day[i];
    assert forall i :: |day| < i < monthEnd ==> t[i] == core[i - |day| - 1];
    assert forall i :: monthEnd <= i < yearStart ==> t[i] == tail[i - monthEnd];
    assert forall i :: yearStart <= i < |t| ==> t[i] == year[i - yearStart];
    assert forall i :: 0 <= i < |t| ==> WesternChar(t[i]) == t[i];
  }

  lemma {:induction false} Regroup(a: string, name: string, core: string, tail: string, b: string)
    requires name + " " == core + tail
    ensures a + " " + name + " " + b == a + " " + core + tail + b
  {
    assert a + " " + name + " " + b == a + " " + (name + " ") + b;
    assert a + " " + (core + tail) + b == a + " " + core + tail + b;
  }

  lemma {:induction false} LaidReads(day: nat, month: nat, year: nat, name: string, core: string, tail: string)
    requires 1 <= day <= 31 && 1000 <= year <= 9999 && WordLike(core)
    requires name + " " == core + tail && (tail == " " || tail == ". ")
    requires MonthByName(MonthKey(core)) == Some(month)
    ensures var t := Digits(day) + " " + name + " " + Digits(year);
            Western(Trim(t)) == t && Numbers(t) == Some(Day(year, month, day))
  {
    Regroup(Digits(day), name, core, tail, Digits(year));
    ShownIsPlain(Digits(day), core, tail, Digits(year));
    NumbersLaid(day, core, tail, year, month);
  }

  lemma {:induction false} ShownNumbers(d: Day, language: Language)
    requires IsReal(d) && InRange(d.year)
    ensures Western(Trim(ShownDay(d, language))) == ShownDay(d, language)
    ensures Numbers(ShownDay(d, language)) == Some(d.(year := EraYear(d.year, language)))
  {
    if language == Thai {
      ThaiNames(d.month);
      LaidReads(d.day, d.month, EraYear(d.year, Thai), ThaiShort(d.month), Core(Thai, d.month), ". ");
    } else {
      EnglishNames(d.month);
      LaidReads(d.day, d.month, EraYear(d.year, English), EnglishShort(d.month), Core(English, d.month), " ");
    }
  }

  lemma {:induction false} JudgedReal(d: Day, language: Language)
    requires IsReal(d) && InRange(d.year)
    ensures Judge(d.(year := EraYear(d.year, language)), language) == Accepted(Iso(d))
  {}

  /** `ParseDateInput` undoes `ShowBusinessDate`, for every real day in range and either language. */
  lemma {:induction false} ShownReadsBack(d: Day, language: Language)
    requires IsReal(d) && InRange(d.year)
    ensures ParseDateInput(ShowBusinessDate(Iso(d), language), language) == Accepted(Iso(d))
  {
    IsoSplits(d);
    ShownNumbers(d, language);
    ParsedNumbers(ShownDay(d, language), d.(year := EraYear(d.year, language)), language);
    JudgedReal(d, language);
  }
}
