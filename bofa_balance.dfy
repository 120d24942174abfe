/** The Bank of America account-balance extractor: per statement, the
    period-end date from the statement's header line and the ending balance,
    then the balance summary of all statements. */
module BofaBalance {
  import opened Results
  import opened Text
  import opened Money
  import opened Dates
  import opened Ordering
  import opened BalanceRows

  // ---------------------------------------------------------------- period-end date

  const For := "for "
  const To := " to "
  const AccountNumber := " Account number: "

  /** `^for .* to (.*) Account number: .*$` matches with " to " at `i` and
      " Account number: " at `j`. */
  predicate DateMatchAt(line: string, i: nat, j: nat) {
    OccursAt(line, For, 0) && |For| <= i && i + |To| <= j && OccursAt(line, To, i) && OccursAt(line, AccountNumber, j)
  }

  /** The group of the date pattern. Both `.*` are greedy, so the regex
      engine settles on the last " Account number: " and, before it, the
      last " to " after "for ". */
  function DateGroup(line: string): Option<string> {
    if !OccursAt(line, For, 0) then None
    else
      match LastOccurrence(line, AccountNumber, 0, |line|)
      case None => None
      case Some(j) =>
        match LastOccurrence(line, To, |For|, j - |To|)
        case None => None
        case Some(i) => Some(line[i + |To|..j])
  }

  /** The pattern matches exactly when some pair of positions fits it, and
      the group lies between the greatest such pair: the latest " to ", then
      the latest " Account number: " after it. */
  lemma DateGroupMatches(line: string)
    ensures DateGroup(line).Some? <==> exists i: nat, j: nat :: DateMatchAt(line, i, j)
    ensures DateGroup(line).Some? ==> exists i: nat, j: nat ::
      (DateMatchAt(line, i, j) && DateGroup(line).value == line[i + |To|..j]
       && forall i': nat, j': nat :: DateMatchAt(line, i', j') ==> i' < i || (i' == i && j' <= j))
  {
    if OccursAt(line, For, 0) {
      match LastOccurrence(line, AccountNumber, 0, |line|)
      case None =>
      case Some(j) =>
        match LastOccurrence(line, To, |For|, j - |To|)
        case None =>
        case Some(i) =>
          assert DateMatchAt(line, i, j);
          forall i': nat, j': nat | DateMatchAt(line, i', j') ensures i' < i || (i' == i && j' <= j) {
            assert j' <= j;
          }
    }
  }

  predicate IsDateLine(line: string) {
    DateGroup(line).Some?
  }

  /** `_extract_date` on the lines of a statement. */
  function DateOfLines(lines: seq<string>): Result<string> {
    match FirstFrom(lines, 0, IsDateLine)
    case None => Err(DateNotFound)
    case Some(i) => NormalizeDate(DateGroup(lines[i]).value)
  }

  /** The first line that matches the date pattern decides; only a
      statement without one reports the date as not found. */
  lemma DateOfLinesFirstMatch(lines: seq<string>)
    ensures (forall j :: 0 <= j < |lines| ==> !IsDateLine(lines[j])) <==> DateOfLines(lines) == Err(DateNotFound)
    ensures forall i :: 0 <= i < |lines| && IsDateLine(lines[i]) && (forall j :: 0 <= j < i ==> !IsDateLine(lines[j])) ==>
      DateOfLines(lines) == NormalizeDate(DateGroup(lines[i]).value)
  {
    forall i | 0 <= i < |lines| && IsDateLine(lines[i]) && (forall j :: 0 <= j < i ==> !IsDateLine(lines[j]))
      ensures DateOfLines(lines) == NormalizeDate(DateGroup(lines[i]).value)
    {
      FirstFromAt(lines, 0, IsDateLine, i);
    }
    match FirstFrom(lines, 0, IsDateLine)
    case None =>
    case Some(i) => assert NormalizeDate(DateGroup(lines[i]).value) != Err(DateNotFound);
  }

  function ExtractDate(text: string): Result<string> {
    DateOfLines(Split(text, '\n'))
  }

  // ---------------------------------------------------------------- ending balance

  const BalancePrefix := "Ending balance on "
  const Dollar := " $"

  /** `^Ending balance on .* \$(.*)$` matches with " $" at `k`. */
  predicate BalanceMatchAt(line: string, k: nat) {
    OccursAt(line, BalancePrefix, 0) && |BalancePrefix| <= k && OccursAt(line, Dollar, k)
  }

  /** The group of the balance pattern: the greedy `.*` runs to the last
      " $" after the prefix, and the group is the rest of the line. */
  function BalanceGroup(line: string): Option<string> {
    if !OccursAt(line, BalancePrefix, 0) then None
    else
      match LastOccurrence(line, Dollar, |BalancePrefix|, |line|)
      case None => None
      case Some(k) => Some(line[k + |Dollar|..])
  }

  /** The pattern matches exactly when the line starts with the prefix and
      has a " $" after it, and the group follows the last such " $". */
  lemma BalanceGroupMatches(line: string)
    ensures BalanceGroup(line).Some? <==> exists k: nat :: BalanceMatchAt(line, k)
    ensures BalanceGroup(line).Some? ==> exists k: nat ::
      (BalanceMatchAt(line, k) && BalanceGroup(line).value == line[k + |Dollar|..]
       && forall k': nat :: BalanceMatchAt(line, k') ==> k' <= k)
  {
    if OccursAt(line, BalancePrefix, 0) {
      match LastOccurrence(line, Dollar, |BalancePrefix|, |line|)
      case None =>
      case Some(k) =>
        assert BalanceMatchAt(line, k);
    }
  }

  predicate IsBalanceLine(line: string) {
    BalanceGroup(line).Some?
  }

  /** `_extract_balance` on the lines of a statement. */
  function BalanceOfLines(lines: seq<string>): Result<string> {
    match FirstFrom(lines, 0, IsBalanceLine)
    case None => Err(BalanceNotFound)
    case Some(i) => NormalizeMoney(BalanceGroup(lines[i]).value)
  }

  /** The first line that matches the balance pattern decides, whatever
      account section it is in; only a statement without one reports the
      balance as not found. */
  lemma BalanceOfLinesFirstMatch(lines: seq<string>)
    ensures (forall j :: 0 <= j < |lines| ==> !IsBalanceLine(lines[j])) <==> BalanceOfLines(lines) == Err(BalanceNotFound)
    ensures forall i :: 0 <= i < |lines| && IsBalanceLine(lines[i]) && (forall j :: 0 <= j < i ==> !IsBalanceLine(lines[j])) ==>
      BalanceOfLines(lines) == NormalizeMoney(BalanceGroup(lines[i]).value)
  {
    forall i | 0 <= i < |lines| && IsBalanceLine(lines[i]) && (forall j :: 0 <= j < i ==> !IsBalanceLine(lines[j]))
      ensures BalanceOfLines(lines) == NormalizeMoney(BalanceGroup(lines[i]).value)
    {
      FirstFromAt(lines, 0, IsBalanceLine, i);
    }
  }

  function ExtractBalance(text: string): Result<string> {
    BalanceOfLines(Split(text, '\n'))
  }

  // ---------------------------------------------------------------- run

  /** One statement's `[date, balance]` entry; the date is looked for first. */
  function Entry(text: string): Result<(string, string)> {
    var date :- ExtractDate(text);
    var balance :- ExtractBalance(text);
    Ok((date, balance))
  }

  /** `run`: the entry of every statement in the order given, then the
      balance summary rows; the first statement that fails aborts the run. */
  method Run(texts: seq<string>) returns (r: Result<seq<seq<string>>>)
    ensures r == (var entries :- MapAll(texts, Entry); Ok(WriteBalanceSummary(entries)))
  {
    var summary: seq<(string, string)> := [];
    var i := 0;
    while i < |texts|
      invariant 0 <= i <= |texts|
      invariant MapAll(texts[..i], Entry) == Ok(summary)
    {
      MapAllStep(texts, i, Entry);
      var date := ExtractDate(texts[i]);
      if date.Err? {
        MapAllPrefixErr(texts, i + 1, Entry);
        return Err(date.error);
      }
      var balance := ExtractBalance(texts[i]);
      if balance.Err? {
        MapAllPrefixErr(texts, i + 1, Entry);
        return Err(balance.error);
      }
      summary := summary + [(date.value, balance.value)];
      i := i + 1;
    }
    assert texts[..i] == texts;
    return Ok(WriteBalanceSummary(summary));
  }

  /** A run succeeds exactly when every statement yields an entry, and then
      its data rows hold exactly the statements' entries, one row per
      statement, in ascending order. */
  lemma RunSucceeds(texts: seq<string>)
    ensures MapAll(texts, Entry).Ok? <==> forall i :: 0 <= i < |texts| ==> Entry(texts[i]).Ok?
    ensures MapAll(texts, Entry).Ok? ==> var rows := WriteBalanceSummary(MapAll(texts, Entry).value);
      |rows| == |texts| + 1 &&
      multiset(Entries(rows[1..])) == multiset(seq(|texts|, i requires 0 <= i < |texts| && Entry(texts[i]).Ok? => Entry(texts[i]).value)) &&
      SortedBy(Entries(rows[1..]), PairLe)
  {
    MapAllOk(texts, Entry);
    if MapAll(texts, Entry).Ok? {
      var entries := MapAll(texts, Entry).value;
      assert entries == seq(|texts|, i requires 0 <= i < |texts| && Entry(texts[i]).Ok? => Entry(texts[i]).value);
    }
  }
}
