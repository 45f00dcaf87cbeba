/** What a date typed by hand is read as: day, month in digits or by name, and year, however separated. */
module TypedDates {
  import opened Options
  import opened Texts
  import opened BusinessDates

  // --- The calendar -------------------------------------------------------------------------------

  /** Every fourth year, but of the full centuries only every fourth. */
  predicate HasLeapDay(year: nat) {
    if year % 100 == 0 then year / 100 % 4 == 0 else year % 4 == 0
  }

  const MONTH_LENGTHS := [31, 28, 31, 30, 31, 30, 31, 31, 30, 31, 30, 31]

  /** A day the calendar has. */
  predicate Exists(d: Day) {
    && 1 <= d.month <= 12 && 1 <= d.day
    && d.day <= MONTH_LENGTHS[d.month - 1] + if d.month == 2 && HasLeapDay(d.year) then 1 else 0
  }

  lemma {:induction false} RealMeansExists(d: Day)
    ensures IsReal(d) <==> Exists(d)
  {
    assert d.year % 400 == 0 <==> d.year % 100 == 0 && d.year / 100 % 4 == 0;
  }

  // --- The parts of a typed date ------------------------------------------------------------------

  /** White space, or one of the marks people put between day, month and year. */
  predicate Separates(text: string) {
    text != "" && forall i :: 0 <= i < |text| ==> text[i] in "/.,-" || IsSpace(text[i])
  }

  predicate Figures(text: string, low: nat, high: nat) {
    low <= |text| <= high && AllDigits(text)
  }

  /** The English names of a month, in small letters. */
  function EnglishNamesOf(month: nat): seq<string> {
    match month
    case 1 => ["jan", "january"]
    case 2 => ["feb", "february"]
    case 3 => ["mar", "march"]
    case 4 => ["apr", "april"]
    case 5 => ["may"]
    case 6 => ["jun", "june"]
    case 7 => ["jul", "july"]
    case 8 => ["aug", "august"]
    case 9 => ["sep", "september", "sept"]
    case 10 => ["oct", "october"]
    case 11 => ["nov", "november"]
    case 12 => ["dec", "december"]
    case _ => []
  }

  /** The Thai names of a month, without dots. */
  function ThaiNamesOf(month: nat): seq<string> {
    match month
    case 1 => ["มค", "มกราคม"]
    case 2 => ["กพ", "กุมภาพันธ์"]
    case 3 => ["มีค", "มีนาคม"]
    case 4 => ["เมย", "เมษายน"]
    case 5 => ["พค", "พฤษภาคม"]
    case 6 => ["มิย", "มิถุนายน"]
    case 7 => ["กค", "กรกฎาคม"]
    case 8 => ["สค", "สิงหาคม"]
    case 9 => ["กย", "กันยายน"]
    case 10 => ["ตค", "ตุลาคม"]
    case 11 => ["พย", "พฤศจิกายน"]
    case 12 => ["ธค", "ธันวาคม"]
    case _ => []
  }

  /** The name, in whatever case. */
  predicate Types(text: string, name: string) {
    && |text| == |name|
    && forall i :: 0 <= i < |text| ==>
         text[i] == name[i] || ('A' <= text[i] <= 'Z' && (text[i] - 'A') as int + 'a' as int == name[i] as int)
  }

  /** The month in one or two digits, or by one of its names. */
  ghost predicate MeansMonth(text: string, month: nat) {
    || (Figures(text, 1, 2) && Spelled(text) == month)
    || exists name :: (name in EnglishNamesOf(month) || name in ThaiNamesOf(month)) && Types(text, name)
  }

  // --- Names --------------------------------------------------------------------------------------

  /** Small letters, and nothing that a date's digits and separators could be taken for. */
  predicate IsPlain(name: string) {
    && name != ""
    && forall i :: 0 <= i < |name| ==>
         && !IsDigit(name[i]) && !IsSeparator(name[i]) && WesternChar(name[i]) == name[i]
         && !('A' <= name[i] <= 'Z')
  }

  lemma {:induction false} EnglishFromJ(key: string)
    requires key != "" && key[0] == 'j'
    ensures EnglishMonth(key)
        == if key == "jan" || key == "january" then Some(1)
           else if key == "jun" || key == "june" then Some(6)
           else if key == "jul" || key == "july" then Some(7)
           else None
  {}

  lemma {:induction false} EnglishFromF(key: string)
    requires key != "" && key[0] == 'f'
    ensures EnglishMonth(key)
        == if key == "feb" || key == "february" then Some(2)
           else None
  {}

  lemma {:induction false} EnglishFromM(key: string)
    requires key != "" && key[0] == 'm'
    ensures EnglishMonth(key)
        == if key == "mar" || key == "march" then Some(3)
           else if key == "may" then Some(5)
           else None
  {}

  lemma {:induction false} EnglishFromA(key: string)
    requires key != "" && key[0] == 'a'
    ensures EnglishMonth(key)
        == if key == "apr" || key == "april" then Some(4)
           else if key == "aug" || key == "august" then Some(8)
           else None
  {}

  lemma {:induction false} EnglishFromS(key: string)
    requires key != "" && key[0] == 's'
    ensures EnglishMonth(key)
        == if key == "sep" || key == "september" || key == "sept" then Some(9)
           else None
  {}

  lemma {:induction false} EnglishFromO(key: string)
    requires key != "" && key[0] == 'o'
    ensures EnglishMonth(key)
        == if key == "oct" || key == "october" then Some(10)
           else None
  {}

  lemma {:induction false} EnglishFromN(key: string)
    requires key != "" && key[0] == 'n'
    ensures EnglishMonth(key)
        == if key == "nov" || key == "november" then Some(11)
           else None
  {}

  lemma {:induction false} EnglishFromD(key: string)
    requires key != "" && key[0] == 'd'
    ensures EnglishMonth(key)
        == if key == "dec" || key == "december" then Some(12)
           else None
  {}

  lemma {:induction false} ThaiFromMo(key: string)
    requires key != "" && key[0] == 'ม'
    ensures ThaiMonth(key)
        == if key == "มค" || key == "มกราคม" then Some(1)
           else if key == "มีค" || key == "มีนาคม" then Some(3)
           else if key == "มิย" || key == "มิถุนายน" then Some(6)
           else None
  {}

  lemma {:induction false} ThaiFromKo(key: string)
    requires key != "" && key[0] == 'ก'
    ensures ThaiMonth(key)
        == if key == "กพ" || key == "กุมภาพันธ์" then Some(2)
           else if key == "กค" || key == "กรกฎาคม" then Some(7)
           else if key == "กย" || key == "กันยายน" then Some(9)
           else None
  {}

  lemma {:induction false} ThaiFromE(key: string)
    requires key != "" && key[0] == 'เ'
    ensures ThaiMonth(key)
        == if key == "เมย" || key == "เมษายน" then Some(4)
           else None
  {}

  lemma {:induction false} ThaiFromPho(key: string)
    requires key != "" && key[0] == 'พ'
    ensures ThaiMonth(key)
        == if key == "พค" || key == "พฤษภาคม" then Some(5)
           else if key == "พย" || key == "พฤศจิกายน" then Some(11)
           else None
  {}

  lemma {:induction false} ThaiFromSo(key: string)
    requires key != "" && key[0] == 'ส'
    ensures ThaiMonth(key)
        == if key == "สค" || key == "สิงหาคม" then Some(8)
           else None
  {}

  lemma {:induction false} ThaiFromTo(key: string)
    requires key != "" && key[0] == 'ต'
    ensures ThaiMonth(key)
        == if key == "ตค" || key == "ตุลาคม" then Some(10)
           else None
  {}

  lemma {:induction false} ThaiFromTho(key: string)
    requires key != "" && key[0] == 'ธ'
    ensures ThaiMonth(key)
        == if key == "ธค" || key == "ธันวาคม" then Some(12)
           else None
  {}

  lemma {:induction false} EnglishNameIsFound(month: nat, name: string)
    requires name in EnglishNamesOf(month)
    ensures EnglishMonth(name) == Some(month)
  {
    match month
    case 1 => EnglishFromJ(name);
    case 2 => EnglishFromF(name);
    case 3 => EnglishFromM(name);
    case 4 => EnglishFromA(name);
    case 5 => EnglishFromM(name);
    case 6 => EnglishFromJ(name);
    case 7 => EnglishFromJ(name);
    case 8 => EnglishFromA(name);
    case 9 => EnglishFromS(name);
    case 10 => EnglishFromO(name);
    case 11 => EnglishFromN(name);
    case 12 => EnglishFromD(name);
    case _ =>
  }

  lemma {:induction false} ThaiNameIsFound(month: nat, name: string)
    requires name in ThaiNamesOf(month)
    ensures ThaiMonth(name) == Some(month)
  {
    match month
    case 1 => ThaiFromMo(name);
    case 2 => ThaiFromKo(name);
    case 3 => ThaiFromMo(name);
    case 4 => ThaiFromE(name);
    case 5 => ThaiFromPho(name);
    case 6 => ThaiFromMo(name);
    case 7 => ThaiFromKo(name);
    case 8 => ThaiFromSo(name);
    case 9 => ThaiFromKo(name);
    case 10 => ThaiFromTo(name);
    case 11 => ThaiFromPho(name);
    case 12 => ThaiFromTho(name);
    case _ =>
  }

  lemma {:induction false} NameIsFound(month: nat, name: string)
    requires name in EnglishNamesOf(month) || name in ThaiNamesOf(month)
    ensures MonthByName(name) == Some(month)
  {
    if name in EnglishNamesOf(month) {
      EnglishNameIsFound(month, name);
    } else {
      NotEnglish(name);
      ThaiNameIsFound(month, name);
    }
  }

  lemma {:induction false} PlainEnglish1(month: nat, name: string)
    requires 1 <= month <= 2 && name in EnglishNamesOf(month)
    ensures IsPlain(name)
  {}

  lemma {:induction false} PlainEnglish2(month: nat, name: string)
    requires 3 <= month <= 4 && name in EnglishNamesOf(month)
    ensures IsPlain(name)
  {}

  lemma {:induction false} PlainEnglish3(month: nat, name: string)
    requires 5 <= month <= 6 && name in EnglishNamesOf(month)
    ensures IsPlain(name)
  {}

  lemma {:induction false} PlainEnglish4(month: nat, name: string)
    requires 7 <= month <= 8 && name in EnglishNamesOf(month)
    ensures IsPlain(name)
  {}

  lemma {:induction false} PlainEnglish5(month: nat, name: string)
    requires 9 <= month <= 10 && name in EnglishNamesOf(month)
    ensures IsPlain(name)
  {}

  lemma {:induction false} PlainEnglish6(month: nat, name: string)
    requires month == 11 && name in EnglishNamesOf(month)
    ensures IsPlain(name)
  {}

  lemma {:induction false} PlainEnglish7(month: nat, name: string)
    requires month == 12 && name in EnglishNamesOf(month)
    ensures IsPlain(name)
  {}

  lemma {:induction false} PlainThai1(month: nat, name: string)
    requires 1 <= month <= 2 && name in ThaiNamesOf(month)
    ensures IsPlain(name)
  {}

  lemma {:induction false} PlainThai2(month: nat, name: string)
    requires 3 <= month <= 4 && name in ThaiNamesOf(month)
    ensures IsPlain(name)
  {}

  lemma {:induction false} PlainThai3(month: nat, name: string)
    requires 5 <= month <= 6 && name in ThaiNamesOf(month)
    ensures IsPlain(name)
  {}

  lemma {:induction false} PlainThai4(month: nat, name: string)
    requires 7 <= month <= 8 && name in ThaiNamesOf(month)
    ensures IsPlain(name)
  {}

  lemma {:induction false} PlainThai5(month: nat, name: string)
    requires 9 <= month <= 10 && name in ThaiNamesOf(month)
    ensures IsPlain(name)
  {}

  lemma {:induction false} PlainThai6(month: nat, name: string)
    requires 11 <= month <= 12 && name in ThaiNamesOf(month)
    ensures IsPlain(name)
  {}

  lemma {:induction false} NameIsPlain(month: nat, name: string)
    requires name in EnglishNamesOf(month) || name in ThaiNamesOf(month)
    ensures IsPlain(name)
  {
    if name in EnglishNamesOf(month) {
      if month <= 2 { PlainEnglish1(month, name); } else if month <= 4 { PlainEnglish2(month, name); }
      else if month <= 6 { PlainEnglish3(month, name); } else if month <= 8 { PlainEnglish4(month, name); }
      else if month <= 10 { PlainEnglish5(month, name); } else if month == 11 { PlainEnglish6(month, name); }
      else { PlainEnglish7(month, name); }
    } else {
      if month <= 2 { PlainThai1(month, name); } else if month <= 4 { PlainThai2(month, name); }
      else if month <= 6 { PlainThai3(month, name); } else if month <= 8 { PlainThai4(month, name); }
      else if month <= 10 { PlainThai5(month, name); } else { PlainThai6(month, name); }
    }
  }

  lemma {:induction false} KeyOfTyped(text: string, name: string)
    requires Types(text, name) && IsPlain(name)
    ensures MonthKey(text) == name
  {
    if |text| == 1 {
      assert text[1..] == "";
    } else {
      assert IsPlain(name[1..]);
      KeyOfTyped(text[1..], name[1..]);
      assert name == [name[0]] + name[1..];
    }
  }

  lemma {:induction false} TypedIsWordLike(text: string, name: string)
    requires Types(text, name) && IsPlain(name)
    ensures WordLike(text)
  {}

  // --- Finding the parts --------------------------------------------------------------------------

  /** Day, separators, month, separators and year, one after the other. */
  ghost predicate InParts(t: string, dayEnd: nat, monthStart: nat, monthEnd: nat, yearStart: nat) {
    && 0 < dayEnd <= 2 && dayEnd < monthStart < monthEnd < yearStart < |t|
    && DigitsAt(t, 0, dayEnd) && YearFrom(t, yearStart)
    && (forall i :: dayEnd <= i < monthStart || monthEnd <= i < yearStart ==> IsSeparator(t[i]))
    && !IsSeparator(t[monthStart]) && !IsSeparator(t[monthEnd - 1])
  }

  /** A month in digits is found as they stand, two before one. */
  lemma {:induction false} DigitMonth(t: string, dayEnd: nat, monthStart: nat, monthEnd: nat, yearStart: nat)
    requires InParts(t, dayEnd, monthStart, monthEnd, yearStart)
    requires monthEnd <= monthStart + 2 && DigitsAt(t, monthStart, monthEnd - monthStart)
    ensures MonthFrom(t, monthStart) == Some(MonthFound(monthEnd, yearStart))
  {
    assert IsDigit(t[yearStart]);
    SeparatorsRun(t, monthEnd, yearStart);
    if monthEnd == monthStart + 1 {
      assert IsSeparator(t[monthEnd]);
      assert !DigitsAt(t, monthStart, 2);
    }
  }

  /** A month in letters ends where its last one is: no year follows any earlier one. */
  lemma {:induction false} LetterMonth(
      t: string, dayEnd: nat, monthStart: nat, monthEnd: nat, yearStart: nat, end: nat)
    requires InParts(t, dayEnd, monthStart, monthEnd, yearStart) && monthStart < end <= monthEnd
    requires forall i :: monthStart <= i < monthEnd ==> !IsDigit(t[i])
    ensures WordsFrom(t, monthStart, end) == Some(MonthFound(monthEnd, yearStart))
    decreases monthEnd - end
  {
    assert !IsDigit(t[end - 1]);
    if end < monthEnd {
      SeparatorsStop(t, end, monthEnd - 1);
      NoYearBefore(t, end, SeparatorsEnd(t, end), monthEnd - 1);
      LetterMonth(t, dayEnd, monthStart, monthEnd, yearStart, end + 1);
    } else {
      assert IsDigit(t[yearStart]);
      SeparatorsRun(t, monthEnd, yearStart);
    }
  }

  lemma {:induction false} MonthIsFound(t: string, dayEnd: nat, monthStart: nat, monthEnd: nat, yearStart: nat)
    requires InParts(t, dayEnd, monthStart, monthEnd, yearStart)
    requires
      || (monthEnd <= monthStart + 2 && DigitsAt(t, monthStart, monthEnd - monthStart))
      || forall i :: monthStart <= i < monthEnd ==> !IsDigit(t[i])
    ensures MonthFrom(t, monthStart) == Some(MonthFound(monthEnd, yearStart))
  {
    if monthEnd <= monthStart + 2 && DigitsAt(t, monthStart, monthEnd - monthStart) {
      DigitMonth(t, dayEnd, monthStart, monthEnd, yearStart);
    } else {
      LetterMonth(t, dayEnd, monthStart, monthEnd, yearStart, monthStart + 1);
      assert NumberFrom(t, monthStart, 2).None? && NumberFrom(t, monthStart, 1).None?;
    }
  }

  lemma {:induction false} PartsAreFound(t: string, dayEnd: nat, monthStart: nat, monthEnd: nat, yearStart: nat)
    requires InParts(t, dayEnd, monthStart, monthEnd, yearStart)
    requires MonthFrom(t, monthStart) == Some(MonthFound(monthEnd, yearStart))
    ensures MatchDate(t) == Some(Found(dayEnd, monthStart, monthEnd, yearStart))
  {
    SeparatorsRun(t, dayEnd, monthStart);
    assert IsSeparator(t[dayEnd]);
    assert dayEnd == 1 ==> !DigitsAt(t, 0, 2);
  }

  /** A text that is day, separators, month, separators and year. */
  ghost predicate IsMadeOf(t: string, day: string, sep: string, month: string, gap: string, year: string) {
    var monthStart := |day| + |sep|;
    var monthEnd := monthStart + |month|;
    var yearStart := monthEnd + |gap|;
    && |t| == yearStart + |year|
    && t[..|day|] == day && t[monthStart..monthEnd] == month && t[yearStart..] == year
    && (forall i :: 0 <= i < |day| ==> t[i] == day[i])
    && (forall i :: |day| <= i < monthStart ==> t[i] == sep[i - |day|])
    && (forall i :: monthStart <= i < monthEnd ==> t[i] == month[i - monthStart])
    && (forall i :: monthEnd <= i < yearStart ==> t[i] == gap[i - monthEnd])
    && (forall i :: yearStart <= i < |t| ==> t[i] == year[i - yearStart])
  }

  lemma {:induction false} JoinedParts(day: string, sep: string, month: string, gap: string, year: string)
    ensures IsMadeOf(day + sep + month + gap + year, day, sep, month, gap, year)
  {}

  /** What the reading needs of a month's text. */
  ghost predicate StandsAsMonth(text: string) {
    && text != "" && !IsSeparator(text[0]) && !IsSeparator(text[|text| - 1])
    && (Figures(text, 1, 2) || forall i :: 0 <= i < |text| ==> !IsDigit(text[i]))
    && forall i :: 0 <= i < |text| ==> WesternChar(text[i]) == text[i]
  }

  lemma {:induction false} MonthReads(text: string, month: nat)
    requires MeansMonth(text, month)
    ensures StandsAsMonth(text) && MonthOf(text) == Some(month)
  {
    if Figures(text, 1, 2) && Spelled(text) == month {
    } else {
      var name :| (name in EnglishNamesOf(month) || name in ThaiNamesOf(month)) && Types(text, name);
      NameIsPlain(month, name);
      NameIsFound(month, name);
      KeyOfTyped(text, name);
      TypedIsWordLike(text, name);
      assert !IsDigit(text[0]);
    }
  }

  lemma {:induction false} SeparatesMeans(text: string)
    requires Separates(text)
    ensures forall i :: 0 <= i < |text| ==> IsSeparator(text[i]) && WesternChar(text[i]) == text[i]
  {}

  /** The parts are what they have to be. */
  ghost predicate PartsStand(day: string, sep: string, month: string, gap: string, year: string) {
    Figures(day, 1, 2) && Separates(sep) && StandsAsMonth(month) && Separates(gap) && Figures(year, 4, 4)
  }

  lemma {:induction false} MadeInParts(
      t: string, day: string, sep: string, month: string, gap: string, year: string)
    requires IsMadeOf(t, day, sep, month, gap, year) && PartsStand(day, sep, month, gap, year)
    ensures InParts(t, |day|, |day| + |sep|, |day| + |sep| + |month|, |day| + |sep| + |month| + |gap|)
    ensures Western(Trim(t)) == t
    ensures
      var monthStart := |day| + |sep|;
      var monthEnd := monthStart + |month|;
      || (monthEnd <= monthStart + 2 && DigitsAt(t, monthStart, monthEnd - monthStart))
      || forall i :: monthStart <= i < monthEnd ==> !IsDigit(t[i])
  {
    SeparatesMeans(sep);
    SeparatesMeans(gap);
    assert t[0] == day[0] && t[|t| - 1] == year[|year| - 1];
    TrimNothing(t);
    assert forall i :: 0 <= i < |t| ==> WesternChar(t[i]) == t[i];
  }

  lemma {:induction false} PartsAreNumbers(
      t: string, dayEnd: nat, monthStart: nat, monthEnd: nat, yearStart: nat, day: string, month: string, year: string,
      m: nat)
    requires InParts(t, dayEnd, monthStart, monthEnd, yearStart) && |t| == yearStart + 4
    requires
      || (monthEnd <= monthStart + 2 && DigitsAt(t, monthStart, monthEnd - monthStart))
      || forall i :: monthStart <= i < monthEnd ==> !IsDigit(t[i])
    requires t[..dayEnd] == day && t[monthStart..monthEnd] == month && t[yearStart..] == year
    requires AllDigits(day) && AllDigits(year) && MonthOf(month) == Some(m)
    ensures Numbers(t) == Some(Day(Spelled(year), m, Spelled(day)))
  {
    MonthIsFound(t, dayEnd, monthStart, monthEnd, yearStart);
    PartsAreFound(t, dayEnd, monthStart, monthEnd, yearStart);
  }

  lemma {:induction false} MadeNumbers(
      t: string, day: string, sep: string, month: string, gap: string, year: string, m: nat)
    requires IsMadeOf(t, day, sep, month, gap, year) && PartsStand(day, sep, month, gap, year)
    requires MonthOf(month) == Some(m)
    ensures t != "" && Western(Trim(t)) == t && Numbers(t) == Some(Day(Spelled(year), m, Spelled(day)))
  {
    var monthStart := |day| + |sep|;
    var monthEnd := monthStart + |month|;
    MadeInParts(t, day, sep, month, gap, year);
    PartsAreNumbers(t, |day|, monthStart, monthEnd, monthEnd + |gap|, day, month, year, m);
  }

  /** The year as it counts in the language's calendar: 543 more in the Buddhist era. */
  function InEra(year: int, language: Language): int {
    match language
    case Thai => year + 543
    case English => year
  }

  /**
   * What is answered to a typed year, month and day. A year of the other era is sent back with the one
   * probably meant; any other out of range is refused; and then the day has to exist.
   */
  ghost predicate AnswersTo(answer: Answer, year: nat, month: nat, day: nat, language: Language) {
    var gregorian := year - InEra(0, language);
    if 1900 <= gregorian <= 2200 then
      var d := Day(gregorian, month, day);
      if Exists(d) then answer == Accepted(Iso(d)) else answer == NoSuchDay
    else if language == Thai && 1900 <= year <= 2200 then answer == GregorianYear(year, year + 543)
    else if language == English && 2443 <= year <= 2743 then answer == BuddhistYear(year, year - 543)
    else answer == OutOfRange(year)
  }

  lemma {:induction false} JudgedAs(typed: Day, language: Language)
    ensures AnswersTo(Judge(typed, language), typed.year, typed.month, typed.day, language)
  {
    if InRange(typed.year - InEra(0, language)) {
      RealMeansExists(Day(typed.year - InEra(0, language), typed.month, typed.day));
    }
  }

  /**
   * A date typed day first, with the month in figures or by name, whatever separates them and in
   * whatever case, is answered as its numbers deserve.
   */
  lemma {:induction false} TypedDateIsRead(
      day: string, sep: string, monthText: string, gap: string, year: string, month: nat, language: Language)
    requires Figures(day, 1, 2) && Separates(sep) && MeansMonth(monthText, month) && Separates(gap)
    requires Figures(year, 4, 4)
    ensures AnswersTo(ParseDateInput(day + sep + monthText + gap + year, language), Spelled(year), month, Spelled(day),
                      language)
  {
    MonthReads(monthText, month);
    JoinedParts(day, sep, monthText, gap, year);
    MadeIsAnswered(day + sep + monthText + gap + year, day, sep, monthText, gap, year, month, language);
  }

  lemma {:induction false} MadeIsAnswered(
      t: string, day: string, sep: string, month: string, gap: string, year: string, m: nat, language: Language)
    requires IsMadeOf(t, day, sep, month, gap, year) && PartsStand(day, sep, month, gap, year)
    requires MonthOf(month) == Some(m)
    ensures AnswersTo(ParseDateInput(t, language), Spelled(year), m, Spelled(day), language)
  {
    MadeNumbers(t, day, sep, month, gap, year, m);
    ParsedNumbers(t, Day(Spelled(year), m, Spelled(day)), language);
    JudgedAs(Day(Spelled(year), m, Spelled(day)), language);
  }

  /** A number in one or two digits, as it is typed. */
  predicate TypedAs(text: string, n: nat) {
    Figures(text, 1, 2) && Spelled(text) == n
  }

  /** Every day the calendar has from 1900 to 2200 is accepted as itself, typed in either era. */
  lemma {:induction false} TypedDayIsAccepted(
      d: Day, language: Language, day: string, sep: string, monthText: string, gap: string)
    requires Exists(d) && 1900 <= d.year <= 2200
    requires TypedAs(day, d.day) && Separates(sep) && MeansMonth(monthText, d.month) && Separates(gap)
    ensures ParseDateInput(day + sep + monthText + gap + Digits(InEra(d.year, language)), language) == Accepted(Iso(d))
  {
    var year := InEra(d.year, language);
    FourDigits(year);
    DigitsSpell(year);
    TypedDateIsRead(day, sep, monthText, gap, Digits(year), d.month, language);
    AcceptedAs(ParseDateInput(day + sep + monthText + gap + Digits(year), language), d, language);
  }

  lemma {:induction false} AcceptedAs(answer: Answer, d: Day, language: Language)
    requires Exists(d) && 1900 <= d.year <= 2200
    requires AnswersTo(answer, InEra(d.year, language), d.month, d.day, language)
    ensures answer == Accepted(Iso(d))
  {}

  /** The fifth of June in figures, and September the way many people write it. */
  lemma {:induction false} FifthOfJune()
    ensures ParseDateInput("5" + "/" + "6" + "/" + Digits(2026), English) == Accepted(Iso(Day(2026, 6, 5)))
    ensures ParseDateInput("5" + "." + "6" + "." + Digits(2569), Thai) == Accepted(Iso(Day(2026, 6, 5)))
  {
    assert Spelled("") == 0;
    assert TypedAs("5", 5) && TypedAs("6", 6);
    TypedDayIsAccepted(Day(2026, 6, 5), English, "5", "/", "6", "/");
    TypedDayIsAccepted(Day(2026, 6, 5), Thai, "5", ".", "6", ".");
  }

  lemma {:induction false} NinthOfSeptember()
    ensures ParseDateInput("9" + " " + "Sept" + " " + Digits(2026), English) == Accepted(Iso(Day(2026, 9, 9)))
  {
    assert Spelled("") == 0;
    assert TypedAs("9", 9);
    assert MeansMonth("Sept", 9) by {
      assert EnglishNamesOf(9)[2] == "sept" && Types("Sept", "sept");
    }
    TypedDayIsAccepted(Day(2026, 9, 9), English, "9", " ", "Sept", " ");
  }

  // --- Thai digits ----------------------------------------------------------------------------------

  /** The same text but for digits, some of which may be Thai ones. */
  predicate ThaiDigitsFor(u: string, t: string) {
    && |u| == |t|
    && forall i :: 0 <= i < |u| ==>
         u[i] == t[i] || ('0' <= t[i] <= '9' && u[i] as int == (t[i] - '0') as int + 0x0E50)
  }

  lemma {:induction false} TrimmedAlike(u: string, t: string)
    requires ThaiDigitsFor(u, t)
    ensures ThaiDigitsFor(Trim(u), Trim(t))
  {
    StartAlike(u, t);
    EndAlike(TrimStart(u), TrimStart(t));
  }

  lemma {:induction false} StartAlike(u: string, t: string)
    requires ThaiDigitsFor(u, t)
    ensures ThaiDigitsFor(TrimStart(u), TrimStart(t))
  {
    if t != "" && IsSpace(t[0]) { StartAlike(u[1..], t[1..]); }
  }

  lemma {:induction false} EndAlike(u: string, t: string)
    requires ThaiDigitsFor(u, t)
    ensures ThaiDigitsFor(TrimEnd(u), TrimEnd(t))
  {
    if t != "" && IsSpace(t[|t| - 1]) { EndAlike(u[..|u| - 1], t[..|t| - 1]); }
  }

  /** Thai digits are read as the digits they are. */
  lemma {:induction false} ThaiDigitsReadAlike(u: string, t: string, language: Language)
    requires ThaiDigitsFor(u, t)
    ensures ParseDateInput(u, language) == ParseDateInput(t, language)
  {
    TrimmedAlike(u, t);
    assert Western(Trim(u)) == Western(Trim(t));
  }
}
