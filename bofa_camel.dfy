/** The stand-alone Bank of America statement parser at the top of the
    repository: the budget-tracking parser's tokenisation with every
    description turned into big camel case, and no description conversion. */
module BofaCamel {
  import opened Results
  import opened Text
  import opened Ledgers
  import opened Descriptions
  import BofaBudget

  /** One line of `_parse_statement`: the budget-tracking parser's record
      with its description capitalised word by word; capitalising fails on
      an empty word. */
  function ParseLine(line: string): Result<Record> {
    var plain := BofaBudget.ParseLine(line);
    var description :- BigCamel(plain.description);
    Ok(plain.(description := description))
  }

  /** A line of five tokens or fewer has an empty description, whose one
      empty word cannot be capitalised. */
  lemma ShortLineFails(line: string)
    requires |Split(Strip(line), ' ')| <= 5
    ensures ParseLine(line) == Err(MissingToken)
  {
    assert Split("", ' ') == [""];
    BigCamelOk("");
  }

  /** A statement line of space-free tokens with at least one description
      word, none of them empty, parses into the date, the capitalised words
      and the amount. */
  lemma ParseLineOfFields(date: string, second: string, words: seq<string>, x: string, y: string, amount: string)
    requires |date| > 0 && !IsSpace(date[0]) && |amount| > 0 && !IsSpace(amount[|amount| - 1])
    requires ' ' !in date && ' ' !in second && ' ' !in x && ' ' !in y && ' ' !in amount
    requires |words| > 0 && forall i :: 0 <= i < |words| ==> ' ' !in words[i] && |words[i]| > 0
    ensures var r := ParseLine(Join([date, second] + words + [x, y, amount], ' '));
      r.Ok? && r.value.date == date && r.value.amount == amount
      && var ds := Split(r.value.description, ' ');
      |ds| == |words| && forall k :: 0 <= k < |words| ==> ds[k] == [Upper(words[k][0])] + LowerAll(words[k][1..])
  {
    BofaBudget.ParseLineOfFields(date, second, words, x, y, amount);
    SplitOfJoin(words, ' ');
    BigCamelOk(Join(words, ' '));
    BigCamelTokens(Join(words, ' '));
  }

  /** `_parse_statement`: one record per line, in order; the first line that
      cannot be parsed aborts. */
  method ParseStatement(lines: seq<string>) returns (r: Result<seq<Record>>)
    ensures r == MapAll(lines, ParseLine)
  {
    r := MapAllLoop(lines, ParseLine);
  }

  /** On success every record is the budget-tracking parser's record of the
      same line with an already capitalised description. */
  lemma ParsedCapitalized(lines: seq<string>)
    requires MapAll(lines, ParseLine).Ok?
    ensures var records := MapAll(lines, ParseLine).value;
      |records| == |lines| && forall i :: 0 <= i < |lines| ==>
        records[i].date == BofaBudget.ParseLine(lines[i]).date
        && records[i].amount == BofaBudget.ParseLine(lines[i]).amount
        && BigCamel(records[i].description) == Ok(records[i].description)
  {
    MapAllOk(lines, ParseLine);
    forall i | 0 <= i < |lines|
      ensures BigCamel(MapAll(lines, ParseLine).value[i].description) == Ok(MapAll(lines, ParseLine).value[i].description)
    {
      BigCamelIdempotent(BofaBudget.ParseLine(lines[i]).description);
    }
  }

  /** `run`: parse, then write the ledger. */
  method Run(lines: seq<string>) returns (r: Result<seq<seq<string>>>)
    ensures r == (var records :- MapAll(lines, ParseLine); Ok(RecordRows(records)))
  {
    var records := ParseStatement(lines);
    if records.Err? {
      return Err(records.error);
    }
    var rows := WriteRecords(records.value);
    return Ok(rows);
  }
}
