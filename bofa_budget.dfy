/** The Bank of America budget-tracking statement parser: one record per
    statement line, then optional description conversion, then the ledger. */
module BofaBudget {
  import opened Results
  import opened Text
  import opened Ledgers
  import opened Descriptions

  /** One line of `_parse_statement`: the first token is the date, the
      tokens between the second and the last three are the description, the
      last token is the amount. The tokens come from `split(' ')`, which
      always yields at least one, so no line fails. */
  function ParseLine(line: string): (r: Record)
    ensures var ts := Split(Strip(line), ' '); r.date == ts[0] && r.amount == ts[|ts| - 1]
    ensures |Split(Strip(line), ' ')| <= 5 ==> r.description == ""
  {
    var tokens := Split(Strip(line), ' ');
    Record(tokens[0], Join(PySlice(tokens, 2, -3), ' '), tokens[|tokens| - 1])
  }

  /** The tokens of a statement line: the date, one more token, the
      description words, three more tokens, the amount; none holds a space,
      and the line starts and ends with a non-blank. */
  predicate LineTokens(ts: seq<string>) {
    |ts| >= 5 && (forall i :: 0 <= i < |ts| ==> ' ' !in ts[i])
    && |ts[0]| > 0 && !IsSpace(ts[0][0]) && |ts[|ts| - 1]| > 0 && !IsSpace(ts[|ts| - 1][|ts[|ts| - 1]| - 1])
  }

  /** Space-free fields laid out in that order are such tokens. Proving this
      apart keeps the sequence reasoning out of `ParseLineOfFields`. */
  lemma FieldTokens(date: string, second: string, words: seq<string>, x: string, y: string, amount: string)
    requires |date| > 0 && !IsSpace(date[0]) && |amount| > 0 && !IsSpace(amount[|amount| - 1])
    requires ' ' !in date && ' ' !in second && ' ' !in x && ' ' !in y && ' ' !in amount
    requires forall i :: 0 <= i < |words| ==> ' ' !in words[i]
    ensures LineTokens([date, second] + words + [x, y, amount])
  {
    var ts := [date, second] + words + [x, y, amount];
    assert forall i :: 2 <= i < |ts| - 3 ==> ts[i] == words[i - 2];
  }

  /** A statement line of space-free tokens — the date, one more token, the
      description words, three more tokens, the amount last — parses into
      the date, the words and the amount. */
  lemma ParseLineOfFields(date: string, second: string, words: seq<string>, x: string, y: string, amount: string)
    requires |date| > 0 && !IsSpace(date[0]) && |amount| > 0 && !IsSpace(amount[|amount| - 1])
    requires ' ' !in date && ' ' !in second && ' ' !in x && ' ' !in y && ' ' !in amount
    requires forall i :: 0 <= i < |words| ==> ' ' !in words[i]
    ensures ParseLine(Join([date, second] + words + [x, y, amount], ' ')) == Record(date, Join(words, ' '), amount)
  {
    var ts := [date, second] + words + [x, y, amount];
    FieldTokens(date, second, words, x, y, amount);
    SplitStripJoin(ts);
    assert PySlice(ts, 2, -3) == ts[2..|ts| - 3] == words;
  }

  /** The records of a statement, one per line. */
  function ParseAll(lines: seq<string>): (records: seq<Record>)
    ensures |records| == |lines|
  {
    Map(lines, ParseLine)
  }

  /** `_parse_statement`. */
  method ParseStatement(lines: seq<string>) returns (records: seq<Record>)
    ensures records == ParseAll(lines)
  {
    records := MapLoop(lines, ParseLine);
  }

  /** Every line's record keeps the line's first token as its date, so the
      ledger has a date for each distinct first token and nothing else. */
  lemma LedgerDates(lines: seq<string>, conversions: Option<seq<(string, string)>>, search: (string, string) -> bool)
    ensures forall d :: d in Grouped(ConvertIfGiven(ParseAll(lines), conversions, search)) <==>
      exists i :: 0 <= i < |lines| && Split(Strip(lines[i]), ' ')[0] == d
  {
    var records := ParseAll(lines);
    var out := ConvertIfGiven(records, conversions, search);
    if conversions.Some? {
      TableOfKeys(conversions.value);
      ConvertKeepsDates(records, TableOf(conversions.value), search);
    }
    GroupedValid(out);
    GroupedValid(records);
    assert forall i :: 0 <= i < |lines| ==> records[i].date == Split(Strip(lines[i]), ' ')[0];
  }

  /** `run`: parse, convert the descriptions when a conversion file is
      given, write the ledger. */
  method Run(lines: seq<string>, conversions: Option<seq<(string, string)>>, search: (string, string) -> bool)
    returns (rows: seq<seq<string>>)
    ensures rows == RecordRows(ConvertIfGiven(ParseAll(lines), conversions, search))
  {
    var records := ParseStatement(lines);
    var converted := ConvertStep(records, conversions, search);
    rows := WriteRecords(converted);
  }
}
