/** Statement dates: `Month D, YYYY` as printed on a statement, the
    `YYYY/MM/DD` form the balance extractors write, and the `Y/M` month key
    the aggregator buckets balances under. */
module Dates {
  import opened Results
  import opened Text

  // ---------------------------------------------------------------- months and days

  /** The month table of `_normalize_month`. */
  const MonthNumber: map<string, string> := map[
    "January" := "01", "February" := "02", "March" := "03", "April" := "04",
    "May" := "05", "June" := "06", "July" := "07", "August" := "08",
    "September" := "09", "October" := "10", "November" := "11", "December" := "12"]

  /** `_normalize_month`: the two-digit number of an English month name; any
      other name is a missing key. */
  function NormalizeMonth(name: string): (r: Result<string>)
    ensures r.Ok? <==> name in MonthNumber
    ensures r.Ok? ==> r.value == MonthNumber[name]
    ensures r.Err? ==> r.error == UnknownMonth(name)
  {
    if name in MonthNumber then Ok(MonthNumber[name]) else Err(UnknownMonth(name))
  }

  /** Every month number is two digits with a value from 1 to 12. */
  lemma MonthNumbersAreTwoDigits(name: string)
    requires name in MonthNumber
    ensures |MonthNumber[name]| == 2 && IsDigits(MonthNumber[name])
    ensures 1 <= TwoDigitValue(MonthNumber[name]) <= 12
  {
  }

  /** Different month names get different numbers. */
  lemma MonthNumbersDistinct(a: string, b: string)
    requires a in MonthNumber && b in MonthNumber && a != b
    ensures MonthNumber[a] != MonthNumber[b]
  {
  }

  function TwoDigitValue(s: string): nat
    requires |s| == 2 && IsDigits(s)
  {
    (s[0] as int - '0' as int) * 10 + (s[1] as int - '0' as int)
  }

  /** `_normalize_day`: a two-character day as it is, a one-character day
      with a leading zero, any other length refused. */
  function NormalizeDay(day: string): (r: Result<string>)
    ensures r.Ok? <==> 1 <= |day| <= 2
    ensures r.Ok? ==> |r.value| == 2 && r.value[2 - |day|..] == day
    ensures r.Ok? && |day| == 1 ==> r.value[0] == '0'
    ensures r.Err? ==> r.error == UnexpectedDayFormat(day)
  {
    if |day| == 2 then Ok(day)
    else if |day| == 1 then Ok("0" + day)
    else Err(UnexpectedDayFormat(day))
  }

  /** Padding keeps a day's number: a one- or two-digit day becomes two
      digits of the same value. */
  lemma NormalizeDayKeepsValue(day: string)
    requires IsDigits(day) && |day| <= 2
    ensures NormalizeDay(day).Ok?
    ensures IsDigits(NormalizeDay(day).value)
    ensures TwoDigitValue(NormalizeDay(day).value) == (if |day| == 1 then day[0] as int - '0' as int else TwoDigitValue(day))
  {
  }

  // ---------------------------------------------------------------- statement dates

  /** The three groups of `^(\w+) (\d+), (\d+)$`. */
  datatype HumanDate = HumanDate(month: string, day: string, year: string)

  predicate WellFormed(d: HumanDate) {
    IsWord(d.month) && IsDigits(d.day) && IsDigits(d.year)
  }

  /** The text a statement prints for a date. */
  function HumanText(d: HumanDate): string {
    d.month + " " + d.day + ", " + d.year
  }

  /** Matches `h` against `^(\w+) (\d+), (\d+)$`: the month ends at the
      first space (a word has none) and the day at the first comma (digits
      have none). */
  function ParseHumanDate(h: string): Option<HumanDate> {
    match IndexOf(h, ' ')
    case None => None
    case Some(i) =>
      var rest := h[i + 1..];
      match IndexOf(rest, ',')
      case None => None
      case Some(j) =>
        var tail := rest[j + 1..];
        var d := HumanDate(h[..i], rest[..j], if |tail| > 0 then tail[1..] else "");
        if |tail| > 0 && tail[0] == ' ' && WellFormed(d) then Some(d) else None
  }

  /** What the pattern accepts is exactly the text of a well-formed date. */
  lemma ParseHumanDateSound(h: string)
    requires ParseHumanDate(h).Some?
    ensures WellFormed(ParseHumanDate(h).value)
    ensures HumanText(ParseHumanDate(h).value) == h
  {
    var i := IndexOf(h, ' ').value;
    var rest := h[i + 1..];
    var j := IndexOf(rest, ',').value;
    var tail := rest[j + 1..];
    var d := ParseHumanDate(h).value;
    assert d == HumanDate(h[..i], rest[..j], tail[1..]);
    Reassemble(h, i, j);
  }

  /** Cutting `h` at a space at `i`, then at a comma at `j` after it, and
      dropping the space that follows the comma, leaves three parts that the
      date text puts back together. */
  lemma Reassemble(h: string, i: nat, j: nat)
    requires i < |h| && h[i] == ' '
    requires j < |h[i + 1..]| && h[i + 1..][j] == ','
    requires var tail := h[i + 1..][j + 1..]; |tail| > 0 && tail[0] == ' '
    ensures var rest := h[i + 1..]; var tail := rest[j + 1..];
      HumanText(HumanDate(h[..i], rest[..j], tail[1..])) == h
  {
    var rest := h[i + 1..];
    var tail := rest[j + 1..];
    CutAt(h, i);
    CutAt(rest, j);
    CutAt(tail, 0);
    Assemble(h[..i], rest[..j], tail[1..], tail, rest, h);
  }

  /** A string is its part before position `k`, the character there, and
      its part after. */
  lemma CutAt(s: string, k: nat)
    requires k < |s|
    ensures s == s[..k] + [s[k]] + s[k + 1..]
  {
  }

  lemma Assemble(month: string, day: string, year: string, tail: string, rest: string, h: string)
    requires tail == [' '] + year && rest == day + [','] + tail && h == month + [' '] + rest
    ensures month + " " + day + ", " + year == h
  {
    assert ", " + year == [','] + tail;
  }

  lemma HumanTextParts(d: HumanDate)
    ensures HumanText(d) == d.month + [' '] + (d.day + [','] + (" " + d.year))
  {
    assert d.day + ", " + d.year == d.day + [','] + (" " + d.year);
  }

  /** ... and every well-formed date's text is accepted with its own groups. */
  lemma ParseHumanDateComplete(d: HumanDate)
    requires WellFormed(d)
    ensures ParseHumanDate(HumanText(d)) == Some(d)
  {
    var h := HumanText(d);
    var rest := d.day + [','] + (" " + d.year);
    HumanTextParts(d);
    assert ' ' !in d.month by {
      assert forall k :: 0 <= k < |d.month| ==> IsWordChar(d.month[k]);
    }
    IndexOfAfter(d.month, ' ', rest);
    assert h[|d.month| + 1..] == rest;
    assert ',' !in d.day by {
      assert forall k :: 0 <= k < |d.day| ==> IsDigit(d.day[k]);
    }
    IndexOfAfter(d.day, ',', " " + d.year);
    assert h[..|d.month|] == d.month;
    assert rest[..|d.day|] == d.day;
    var tail := rest[|d.day| + 1..];
    assert tail == " " + d.year;
    assert tail[1..] == d.year;
  }

  /** `_normalize_date`: the year, the month's number and the padded day,
      joined by slashes. A text that does not match the pattern, an unknown
      month and a day longer than two digits fail, checked in that order. */
  function NormalizeDate(h: string): (r: Result<string>)
    ensures ParseHumanDate(h).None? ==> r == Err(UnexpectedDateFormat(h))
  {
    match ParseHumanDate(h)
    case None => Err(UnexpectedDateFormat(h))
    case Some(d) =>
      var month :- NormalizeMonth(d.month);
      var day :- NormalizeDay(d.day);
      Ok(d.year + "/" + month + "/" + day)
  }

  /** On a statement date, normalisation gives `YYYY/MM/DD` with the month
      from the table and the day padded to two digits, and fails exactly
      when the month is unknown or the day is too long. */
  lemma NormalizeDateOf(d: HumanDate)
    requires WellFormed(d)
    ensures NormalizeDate(HumanText(d)).Ok? <==> d.month in MonthNumber && |d.day| <= 2
    ensures d.month !in MonthNumber ==> NormalizeDate(HumanText(d)) == Err(UnknownMonth(d.month))
    ensures d.month in MonthNumber && |d.day| > 2 ==> NormalizeDate(HumanText(d)) == Err(UnexpectedDayFormat(d.day))
    ensures NormalizeDate(HumanText(d)).Ok? ==>
      NormalizeDate(HumanText(d)).value == d.year + "/" + MonthNumber[d.month] + "/" + NormalizeDay(d.day).value
  {
    ParseHumanDateComplete(d);
  }

  /** A normalised date is three slash-separated digit groups: the year as
      printed, a month number from 1 to 12 and a two-digit day. */
  lemma NormalizeDateShape(h: string)
    requires NormalizeDate(h).Ok?
    ensures var parts := Split(NormalizeDate(h).value, '/');
      && |parts| == 3 && IsDigits(parts[0]) && IsDigits(parts[1]) && IsDigits(parts[2])
      && |parts[1]| == 2 && 1 <= TwoDigitValue(parts[1]) <= 12 && |parts[2]| == 2
  {
    var d := ParseHumanDate(h).value;
    ParseHumanDateSound(h);
    MonthNumbersAreTwoDigits(d.month);
    NormalizeDayKeepsValue(d.day);
    var month, day := MonthNumber[d.month], NormalizeDay(d.day).value;
    JoinThree(d.year, month, day, '/');
    NoSlashInDigits(d.year);
    NoSlashInDigits(month);
    NoSlashInDigits(day);
    SplitOfJoin([d.year, month, day], '/');
  }

  /** A run of digits holds no slash. */
  lemma NoSlashInDigits(s: string)
    requires IsDigits(s)
    ensures '/' !in s
  {
    assert forall k :: 0 <= k < |s| ==> IsDigit(s[k]);
  }

  // ---------------------------------------------------------------- month keys

  /** `_to_month`: a `digits/digits/digits` date gives its first two groups
      joined by a slash, with no re-padding; anything else fails. A digit
      group has no slash, so the groups are the slash-separated pieces. */
  function ToMonth(full: string): (r: Result<string>)
    ensures r.Ok? ==>
      (exists y, m, d :: IsDigits(y) && IsDigits(m) && IsDigits(d) && full == y + "/" + m + "/" + d && r.value == y + "/" + m)
  {
    var parts := Split(full, '/');
    if |parts| == 3 && IsDigits(parts[0]) && IsDigits(parts[1]) && IsDigits(parts[2]) then
      assert full == parts[0] + "/" + parts[1] + "/" + parts[2] by {
        assert parts == [parts[0], parts[1], parts[2]];
        JoinThree(parts[0], parts[1], parts[2], '/');
      }
      Ok(parts[0] + "/" + parts[1])
    else Err(UnexpectedDateFormat(full))
  }

  /** Every `digits/digits/digits` date is accepted, keeping its year and
      month groups. */
  lemma ToMonthOf(y: string, m: string, d: string)
    requires IsDigits(y) && IsDigits(m) && IsDigits(d)
    ensures ToMonth(y + "/" + m + "/" + d) == Ok(y + "/" + m)
  {
    NoSlashInDigits(y);
    NoSlashInDigits(m);
    NoSlashInDigits(d);
    JoinThree(y, m, d, '/');
    SplitOfJoin([y, m, d], '/');
  }

  /** The aggregator accepts every date the balance extractors write, and
      its month key is the year and the two-digit month. */
  lemma ToMonthOfNormalizedDate(d: HumanDate)
    requires WellFormed(d) && NormalizeDate(HumanText(d)).Ok?
    ensures d.month in MonthNumber
    ensures ToMonth(NormalizeDate(HumanText(d)).value) == Ok(d.year + "/" + MonthNumber[d.month])
  {
    NormalizeDateOf(d);
    MonthNumbersAreTwoDigits(d.month);
    NormalizeDayKeepsValue(d.day);
    ToMonthOf(d.year, MonthNumber[d.month], NormalizeDay(d.day).value);
  }

  // ---------------------------------------------------------------- examples

  /** A month key keeps the first two groups as they are: `2024/01/15` gives
      `2024/01`, and a `M/D/YYYY` date such as `3/14/2024` gives `3/14`. */
  lemma ToMonthExamples()
    ensures ToMonth("2024" + "/" + "01" + "/" + "15") == Ok("2024" + "/" + "01")
    ensures ToMonth("3" + "/" + "14" + "/" + "2024") == Ok("3" + "/" + "14")
  {
    ToMonthOf("2024", "01", "15");
    ToMonthOf("3", "14", "2024");
  }
}
