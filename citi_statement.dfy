/** The Citibank statement parser: one record per statement line, with an
    optional second (posting) date, then optional description conversion,
    then the budget-tracking ledger. */
module CitiStatement {
  import opened Results
  import opened Text
  import opened Ledgers
  import opened Descriptions

  /** `_parse_amount`: every `$` removed, everything else kept in order. */
  function ParseAmount(amount: string): (r: string)
    ensures r == RemoveChar(amount, '$')
    ensures multiset(r) == multiset(amount)['$' := 0]
    ensures '$' !in amount ==> r == amount
  {
    RemoveCharCounts(amount, '$');
    assert '$' !in amount ==> RemoveChar(amount, '$') == amount by {
      if '$' !in amount {
        RemoveCharAbsent(amount, '$');
      }
    }
    RemoveChar(amount, '$')
  }

  /** A dollar sign in front of a plain amount is dropped, and the amount
      after it is kept as it is. */
  lemma ParseAmountDollar(digits: string)
    requires '$' !in digits
    ensures ParseAmount("$" + digits) == digits
  {
    RemoveCharAround([], digits, '$');
    assert [] + ['$'] + digits == "$" + digits;
    assert [] + digits == digits;
  }

  /** `$1,234.56` gives `1,234.56`. */
  lemma ParseAmountExample()
    ensures ParseAmount("$" + "1,234.56") == "1,234.56"
  {
    ParseAmountDollar("1,234.56");
  }

  /** `_is_date`: exactly two digits, a slash, two digits. */
  predicate IsDate(s: string) {
    |s| == 5 && IsDigit(s[0]) && IsDigit(s[1]) && s[2] == '/' && IsDigit(s[3]) && IsDigit(s[4])
  }

  /** One line of `_parse_statement`, given its tokens. A line that starts
      with two dates drops both from the description; any other line drops
      only the first token; the last token is the amount. A line whose only
      token is a date has no second token to test. */
  function ParseTokens(tokens: seq<string>): (r: Result<Record>)
    requires |tokens| >= 1
    ensures r.Err? <==> |tokens| == 1 && IsDate(tokens[0])
    ensures r.Err? ==> r.error == MissingToken
    ensures r.Ok? ==> r.value.date == tokens[0] && r.value.amount == ParseAmount(tokens[|tokens| - 1])
  {
    var amount := ParseAmount(tokens[|tokens| - 1]);
    if IsDate(tokens[0]) then
      if |tokens| < 2 then Err(MissingToken)
      else if IsDate(tokens[1]) then Ok(Record(tokens[0], Join(PySlice(tokens, 2, -1), ' '), amount))
      else Ok(Record(tokens[0], Join(PySlice(tokens, 1, -1), ' '), amount))
    else Ok(Record(tokens[0], Join(PySlice(tokens, 1, -1), ' '), amount))
  }

  /** One line of `_parse_statement`: its tokens are the stripped line split
      on single spaces. */
  function ParseLine(line: string): (r: Result<Record>)
    ensures r.Err? <==> (var ts := Split(Strip(line), ' '); |ts| == 1 && IsDate(ts[0]))
    ensures r.Err? ==> r.error == MissingToken
    ensures r.Ok? ==> r.value.date == Split(Strip(line), ' ')[0]
    ensures var ts := Split(Strip(line), ' '); r.Ok? ==> r.value.amount == ParseAmount(ts[|ts| - 1])
  {
    var ts := Split(Strip(line), ' ');
    assert |ts| >= 1;
    ParseTokens(ts)
  }

  /** The tokens of a line whose first token is not a date: the rest but the
      last are the description. */
  lemma TokensUndated(ts: seq<string>)
    requires |ts| >= 1 && !IsDate(ts[0])
    ensures ParseTokens(ts)
      == Ok(Record(ts[0], if |ts| == 1 then "" else Join(ts[1..|ts| - 1], ' '), ParseAmount(ts[|ts| - 1])))
  {
    if |ts| == 1 {
      assert PySlice(ts, 1, -1) == [];
    } else {
      assert PySlice(ts, 1, -1) == ts[1..|ts| - 1];
    }
  }

  /** The tokens of a line with a transaction date and no posting date. */
  lemma TokensDated(ts: seq<string>)
    requires |ts| >= 2 && IsDate(ts[0]) && !IsDate(ts[1])
    ensures ParseTokens(ts) == Ok(Record(ts[0], Join(ts[1..|ts| - 1], ' '), ParseAmount(ts[|ts| - 1])))
  {
    assert PySlice(ts, 1, -1) == ts[1..|ts| - 1];
  }

  /** The tokens of a line with both dates and an amount. */
  lemma TokensPosted(ts: seq<string>)
    requires |ts| >= 3 && IsDate(ts[0]) && IsDate(ts[1])
    ensures ParseTokens(ts) == Ok(Record(ts[0], Join(ts[2..|ts| - 1], ' '), ParseAmount(ts[|ts| - 1])))
  {
    assert PySlice(ts, 2, -1) == ts[2..|ts| - 1];
  }

  /** The tokens of a statement line: a first token, description words, an
      amount, none holding a space, the line starting and ending in a
      non-blank. */
  predicate LineTokens(first: string, words: seq<string>, amount: string) {
    |first| > 0 && ' ' !in first && !IsSpace(first[0])
    && (forall i :: 0 <= i < |words| ==> ' ' !in words[i])
    && ' ' !in amount && |amount| > 0 && !IsSpace(amount[|amount| - 1])
  }

  /** A date is a token that starts with a non-blank and holds no space. */
  lemma DateToken(date: string)
    requires IsDate(date)
    ensures |date| > 0 && ' ' !in date && !IsSpace(date[0])
  {
    assert forall i :: 0 <= i < |date| ==> date[i] != ' ' by {
      assert forall i :: 0 <= i < 5 ==> IsDigit(date[i]) || date[i] == '/';
    }
  }

  /** A line printed from space-free tokens, the first starting and the
      last ending in a non-blank, parses as those tokens. */
  lemma LineOfTokens(ts: seq<string>)
    requires |ts| >= 1 && forall i :: 0 <= i < |ts| ==> ' ' !in ts[i]
    requires |ts[0]| > 0 && !IsSpace(ts[0][0])
    requires |ts[|ts| - 1]| > 0 && !IsSpace(ts[|ts| - 1][|ts[|ts| - 1]| - 1])
    ensures ParseLine(Join(ts, ' ')) == ParseTokens(ts)
  {
    SplitStripJoin(ts);
  }

  /** The same for a line of a first token, description words and an
      amount. */
  lemma LineOfFields(first: string, words: seq<string>, amount: string)
    requires LineTokens(first, words, amount)
    ensures var ts := [first] + words + [amount];
      ParseLine(Join(ts, ' ')) == ParseTokens(ts) && ts[1..|ts| - 1] == words
  {
    var ts := [first] + words + [amount];
    assert forall i :: 1 <= i < |ts| - 1 ==> ts[i] == words[i - 1];
    LineOfTokens(ts);
  }

  /** The same for a line with a second token before the words. */
  lemma LineOfPostedFields(first: string, second: string, words: seq<string>, amount: string)
    requires LineTokens(first, words, amount) && ' ' !in second
    ensures var ts := [first, second] + words + [amount];
      ParseLine(Join(ts, ' ')) == ParseTokens(ts) && ts[2..|ts| - 1] == words
  {
    var ts := [first, second] + words + [amount];
    assert ts[0] == first && ts[1] == second && ts[|ts| - 1] == amount;
    assert forall i :: 2 <= i < |ts| - 1 ==> ts[i] == words[i - 2];
    LineOfTokens(ts);
  }

  /** A statement line as the bank prints it without a posting date — the
      transaction date, the description words, the amount — parses into that
      date, the words, and the amount without its `$`, provided the first
      word could not be taken for a posting date. */
  lemma ParseLineOfFields(date: string, words: seq<string>, amount: string)
    requires IsDate(date)
    requires forall i :: 0 <= i < |words| ==> ' ' !in words[i]
    requires ' ' !in amount && |amount| > 0 && !IsSpace(amount[|amount| - 1])
    requires |words| > 0 ==> !IsDate(words[0])
    ensures ParseLine(Join([date] + words + [amount], ' ')) == Ok(Record(date, Join(words, ' '), ParseAmount(amount)))
  {
    var ts := [date] + words + [amount];
    var line := Join(ts, ' ');
    DateToken(date);
    LineOfFields(date, words, amount);
    if |words| == 0 && IsDate(amount) {
      // `date amount` where the amount reads as a posting date: the
      // description is empty either way.
      assert PySlice(ts, 2, -1) == [];
    } else {
      assert ts[1] == if |words| > 0 then words[0] else amount;
      TokensDated(ts);
    }
  }

  /** The same line with a posting date after the transaction date: both
      dates are left out of the description. */
  lemma ParseLineOfPostedFields(date: string, posted: string, words: seq<string>, amount: string)
    requires IsDate(date) && IsDate(posted)
    requires forall i :: 0 <= i < |words| ==> ' ' !in words[i]
    requires ' ' !in amount && |amount| > 0 && !IsSpace(amount[|amount| - 1])
    ensures ParseLine(Join([date, posted] + words + [amount], ' ')) == Ok(Record(date, Join(words, ' '), ParseAmount(amount)))
  {
    var ts := [date, posted] + words + [amount];
    var line := Join(ts, ' ');
    assert ts[0] == date && ts[1] == posted && ts[|ts| - 1] == amount;
    TokensPosted(ts);
    DateToken(date);
    DateToken(posted);
    LineOfPostedFields(date, posted, words, amount);
  }

  /** A line whose first token is not a date (a header, a footer, a
      continuation line) keeps that token as its date, the tokens between it
      and the last as its description, and the last token as its amount. */
  lemma ParseLineOfUndatedFields(first: string, words: seq<string>, amount: string)
    requires LineTokens(first, words, amount) && !IsDate(first)
    ensures ParseLine(Join([first] + words + [amount], ' ')) == Ok(Record(first, Join(words, ' '), ParseAmount(amount)))
  {
    var ts := [first] + words + [amount];
    var line := Join(ts, ' ');
    LineOfFields(first, words, amount);
    TokensUndated(ts);
  }

  /** A one-token line that is not a date is its own date and amount, with
      an empty description. */
  lemma ParseLineOneToken(token: string)
    requires |token| > 0 && ' ' !in token && !IsSpace(token[0]) && !IsSpace(token[|token| - 1])
    requires !IsDate(token)
    ensures ParseLine(token) == Ok(Record(token, "", ParseAmount(token)))
  {
    assert Join([token], ' ') == token;
    LineOfTokens([token]);
    TokensUndated([token]);
  }

  /** A blank line gives a record of three empty fields. */
  lemma ParseBlankLine(line: string)
    requires Strip(line) == ""
    ensures ParseLine(line) == Ok(Record("", "", ""))
  {
    assert Split("", ' ') == [""];
    assert PySlice([""], 1, -1) == [];
    RemoveCharAbsent("", '$');
  }

  /** `_parse_statement`: one record per line, in order; the first line that
      cannot be parsed aborts. */
  method ParseStatement(lines: seq<string>) returns (r: Result<seq<Record>>)
    ensures r == MapAll(lines, ParseLine)
  {
    r := MapAllLoop(lines, ParseLine);
  }

  /** `run`: parse, convert the descriptions when a conversion file is
      given, write the ledger. */
  method Run(lines: seq<string>, conversions: Option<seq<(string, string)>>, search: (string, string) -> bool)
    returns (r: Result<seq<seq<string>>>)
    ensures r == (var records :- MapAll(lines, ParseLine); Ok(RecordRows(ConvertIfGiven(records, conversions, search))))
  {
    var records := ParseStatement(lines);
    if records.Err? {
      return Err(records.error);
    }
    var converted := ConvertStep(records.value, conversions, search);
    var rows := WriteRecords(converted);
    return Ok(rows);
  }

  /** A run fails exactly when some line is a lone date, and then with the
      first such line's error. */
  lemma RunFails(lines: seq<string>)
    ensures MapAll(lines, ParseLine).Err? <==>
      exists i :: 0 <= i < |lines| && (var ts := Split(Strip(lines[i]), ' '); |ts| == 1 && IsDate(ts[0]))
  {
    MapAllOk(lines, ParseLine);
  }
}
