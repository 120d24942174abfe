/** The Chase account-balance extractor: per statement, the period-end date
    and the ending balance of the chosen account, then the balance summary
    of all statements. */
module ChaseBalance {
  import opened Results
  import opened Text
  import opened Money
  import opened Dates
  import opened BalanceRows

  datatype AccountType = Checking | Savings

  /** `_get_account_type_mark`: the header line that opens the account's
      section of a statement. */
  function AccountTypeMark(account: AccountType): (mark: string)
    ensures account.Checking? ==> mark == "CHECKING SUMMARY"
    ensures account.Savings? ==> mark == "SAVINGS SUMMARY"
  {
    match account
    case Checking => "CHECKING SUMMARY"
    case Savings => "SAVINGS SUMMARY"
  }

  /** The two accounts have different header lines. */
  lemma AccountTypeMarksDiffer()
    ensures AccountTypeMark(Checking) != AccountTypeMark(Savings)
  {
    assert AccountTypeMark(Checking)[0] != AccountTypeMark(Savings)[0];
  }

  // ---------------------------------------------------------------- period-end date

  const Through := "through"

  /** The group of `^.*through(.*)$`: the greedy `.*` runs to the LAST
      "through" of the line and the group is everything after it. */
  function ThroughGroup(line: string): (r: Option<string>)
    ensures r.Some? <==> Contains(line, Through)
    ensures r.Some? ==>
      (exists k: nat :: OccursAt(line, Through, k) && r.value == line[k + |Through|..] && forall k': nat :: k < k' ==> !OccursAt(line, Through, k'))
  {
    match LastOccurrence(line, Through, 0, |line|)
    case None => None
    case Some(k) => Some(line[k + |Through|..])
  }

  predicate IsThroughLine(line: string) {
    ThroughGroup(line).Some?
  }

  /** `_extract_date` on the lines of a statement. */
  function DateOfLines(lines: seq<string>): Result<string> {
    match FirstFrom(lines, 0, IsThroughLine)
    case None => Err(DateNotFound)
    case Some(i) => NormalizeDate(ThroughGroup(lines[i]).value)
  }

  /** The first line containing "through" decides: its group is normalised,
      and a malformed group fails without looking at later lines. Only a
      statement without such a line reports the date as not found. */
  lemma DateOfLinesFirstMatch(lines: seq<string>)
    ensures (forall j :: 0 <= j < |lines| ==> !IsThroughLine(lines[j])) <==> DateOfLines(lines) == Err(DateNotFound)
    ensures forall i :: 0 <= i < |lines| && IsThroughLine(lines[i]) && (forall j :: 0 <= j < i ==> !IsThroughLine(lines[j])) ==>
      DateOfLines(lines) == NormalizeDate(ThroughGroup(lines[i]).value)
  {
    forall i | 0 <= i < |lines| && IsThroughLine(lines[i]) && (forall j :: 0 <= j < i ==> !IsThroughLine(lines[j]))
      ensures DateOfLines(lines) == NormalizeDate(ThroughGroup(lines[i]).value)
    {
      FirstFromAt(lines, 0, IsThroughLine, i);
    }
    match FirstFrom(lines, 0, IsThroughLine)
    case None =>
    case Some(i) => NormalizeDateNeverMissing(ThroughGroup(lines[i]).value);
  }

  function ExtractDate(text: string): Result<string> {
    DateOfLines(Split(text, '\n'))
  }

  /** Normalising a found date can fail, but never with DateNotFound. */
  lemma NormalizeDateNeverMissing(h: string)
    ensures NormalizeDate(h) != Err(DateNotFound)
  {
  }

  /** The group keeps the space that follows "through" on the line. */
  lemma ThroughGroupKeepsSpace(a: string, b: string)
    requires !Contains(b, Through)
    ensures ThroughGroup(a + Through + (" " + b)) == Some(" " + b)
  {
    var rest := " " + b;
    var line := a + Through + rest;
    OccursInConcat(a, Through, rest);
    forall k: nat | |a| < k <= |line| ensures !OccursAt(line, Through, k) {
      if k < |a| + |Through| {
        ThroughNoOverlap(line, |a|, k);
      } else if k == |a| + |Through| {
        assert line[k] == ' ';
      } else if k + |Through| <= |line| {
        var kb := k - |a| - |Through| - 1;
        assert line[k..k + |Through|] == b[kb..kb + |Through|];
        assert !OccursAt(b, Through, kb);
      }
    }
    assert line[|a| + |Through|..] == rest;
  }

  /** Two occurrences of "through" cannot overlap: no proper suffix of it is
      also a prefix. */
  lemma ThroughNoOverlap(line: string, k1: nat, k2: nat)
    requires OccursAt(line, Through, k1) && k1 < k2 < k1 + |Through|
    ensures !OccursAt(line, Through, k2)
  {
    var d := k2 - k1;
    assert line[k2] == Through[d] by {
      assert line[k1..k1 + |Through|][d] == line[k2];
    }
    if k2 + |Through| <= |line| {
      assert line[k2..k2 + |Through|][0] == line[k2];
    }
  }

  /** A group that starts with a space does not match `^(\w+) `, so a line
      such as "... through January 5, 2023" is refused as a date format. */
  lemma SpaceAfterThroughRefused(text: string, i: nat, a: string, b: string)
    requires var lines := Split(text, '\n');
      i < |lines| && lines[i] == a + Through + (" " + b) && !Contains(b, Through)
      && forall j :: 0 <= j < i ==> !IsThroughLine(lines[j])
    ensures ExtractDate(text) == Err(UnexpectedDateFormat(" " + b))
  {
    ThroughGroupKeepsSpace(a, b);
    assert IndexOf(" " + b, ' ') == Some(0);
  }

  // ---------------------------------------------------------------- ending balance

  const BalancePrefix := "Ending Balance $"

  /** `^Ending Balance \$(.*)$`: the line starts with the prefix and the
      group is the rest of the line. */
  predicate IsBalanceLine(line: string) {
    OccursAt(line, BalancePrefix, 0)
  }

  function BalanceGroup(line: string): string
    requires IsBalanceLine(line)
  {
    line[|BalancePrefix|..]
  }

  /** The balance the header-gated scan finds. */
  function BalanceAfterMark(lines: seq<string>, mark: string): Result<string> {
    match IndexOf(lines, mark)
    case None => Err(BalanceNotFound)
    case Some(m) =>
      match FirstFrom(lines, m + 1, IsBalanceLine)
      case None => Err(BalanceNotFound)
      case Some(b) => NormalizeMoney(BalanceGroup(lines[b]))
  }

  /** Line `m` is the first line equal to the mark. */
  predicate FirstMarkAt(lines: seq<string>, mark: string, m: nat) {
    m < |lines| && lines[m] == mark && forall j :: 0 <= j < m ==> lines[j] != mark
  }

  /** Line `b` is the first balance line after line `m`. */
  predicate FirstBalanceAfter(lines: seq<string>, m: nat, b: nat) {
    m < b < |lines| && IsBalanceLine(lines[b]) && forall j :: m < j < b ==> !IsBalanceLine(lines[j])
  }

  /** The first line equal to the mark opens the account's section; balance
      lines up to and including it are ignored, and the first balance line
      after it is normalised. Without the mark, or without a balance line
      after it, the balance is not found. */
  lemma BalanceAfterMarkFirstMatch(lines: seq<string>, mark: string)
    ensures (forall j :: 0 <= j < |lines| ==> lines[j] != mark) ==> BalanceAfterMark(lines, mark) == Err(BalanceNotFound)
    ensures forall m: nat, b: nat :: FirstMarkAt(lines, mark, m) && FirstBalanceAfter(lines, m, b) ==>
      BalanceAfterMark(lines, mark) == NormalizeMoney(BalanceGroup(lines[b]))
    ensures forall m: nat :: FirstMarkAt(lines, mark, m) && (forall j :: m < j < |lines| ==> !IsBalanceLine(lines[j])) ==>
      BalanceAfterMark(lines, mark) == Err(BalanceNotFound)
  {
    forall m: nat, b: nat | FirstMarkAt(lines, mark, m) && FirstBalanceAfter(lines, m, b)
      ensures BalanceAfterMark(lines, mark) == NormalizeMoney(BalanceGroup(lines[b]))
    {
      BalanceAfterMarkFound(lines, mark, m, b);
    }
    forall m: nat | FirstMarkAt(lines, mark, m) && (forall j :: m < j < |lines| ==> !IsBalanceLine(lines[j]))
      ensures BalanceAfterMark(lines, mark) == Err(BalanceNotFound)
    {
      BalanceAfterMarkMissing(lines, mark, m);
    }
  }

  /** With the mark first at `m` and the first balance line after it at
      `b`, the balance is line `b`'s group, normalised. */
  lemma BalanceAfterMarkFound(lines: seq<string>, mark: string, m: nat, b: nat)
    requires FirstMarkAt(lines, mark, m) && FirstBalanceAfter(lines, m, b)
    ensures BalanceAfterMark(lines, mark) == NormalizeMoney(BalanceGroup(lines[b]))
  {
    IndexOfAt(lines, mark, m);
    FirstFromAt(lines, m + 1, IsBalanceLine, b);
  }

  /** With the mark found but no balance line after it, the balance is
      not found. */
  lemma BalanceAfterMarkMissing(lines: seq<string>, mark: string, m: nat)
    requires FirstMarkAt(lines, mark, m) && forall j :: m < j < |lines| ==> !IsBalanceLine(lines[j])
    ensures BalanceAfterMark(lines, mark) == Err(BalanceNotFound)
  {
    IndexOfAt(lines, mark, m);
  }

  /** `_extract_balance`: scans the lines once with a flag that turns on at
      the account's header line; after that, the first balance line is
      normalised and returned. */
  method ExtractBalance(text: string, account: AccountType) returns (r: Result<string>)
    ensures r == BalanceAfterMark(Split(text, '\n'), AccountTypeMark(account))
  {
    r := ScanBalance(Split(text, '\n'), AccountTypeMark(account));
  }

  /** The loop of `_extract_balance` over the statement's lines. */
  method ScanBalance(lines: seq<string>, mark: string) returns (r: Result<string>)
    ensures r == BalanceAfterMark(lines, mark)
  {
    var markFound := false;
    ghost var markAt := 0;
    var i := 0;
    while i < |lines|
      invariant 0 <= i <= |lines|
      invariant !markFound ==> forall j :: 0 <= j < i ==> lines[j] != mark
      invariant markFound ==> markAt < i && FirstMarkAt(lines, mark, markAt)
      invariant markFound ==> forall j :: markAt < j < i ==> !IsBalanceLine(lines[j])
    {
      if !markFound {
        if lines[i] == mark {
          markFound := true;
          markAt := i;
        }
      } else if IsBalanceLine(lines[i]) {
        IndexOfAt(lines, mark, markAt);
        FirstFromAt(lines, markAt + 1, IsBalanceLine, i);
        return NormalizeMoney(BalanceGroup(lines[i]));
      }
      i := i + 1;
    }
    if markFound {
      IndexOfAt(lines, mark, markAt);
    }
    return Err(BalanceNotFound);
  }

  // ---------------------------------------------------------------- run

  /** One statement's `[date, balance]` entry; the date is looked for first. */
  function Entry(text: string, account: AccountType): Result<(string, string)> {
    var date :- ExtractDate(text);
    var balance :- BalanceAfterMark(Split(text, '\n'), AccountTypeMark(account));
    Ok((date, balance))
  }

  function EntryOf(account: AccountType): string -> Result<(string, string)> {
    text => Entry(text, account)
  }

  /** The body of `run`'s loop for one statement: its date, then its
      balance. */
  method EntryStep(text: string, account: AccountType) returns (r: Result<(string, string)>)
    ensures r == EntryOf(account)(text)
  {
    var date := ExtractDate(text);
    if date.Err? {
      return Err(date.error);
    }
    var balance := ExtractBalance(text, account);
    if balance.Err? {
      return Err(balance.error);
    }
    return Ok((date.value, balance.value));
  }

  /** `run`: the entry of every statement in the order given, then the
      balance summary rows; the first statement that fails aborts the run. */
  method Run(texts: seq<string>, account: AccountType) returns (r: Result<seq<seq<string>>>)
    ensures r == (var entries :- MapAll(texts, EntryOf(account)); Ok(WriteBalanceSummary(entries)))
  {
    var summary: seq<(string, string)> := [];
    var i := 0;
    while i < |texts|
      invariant 0 <= i <= |texts|
      invariant MapAll(texts[..i], EntryOf(account)) == Ok(summary)
    {
      MapAllStep(texts, i, EntryOf(account));
      var entry := EntryStep(texts[i], account);
      if entry.Err? {
        MapAllPrefixErr(texts, i + 1, EntryOf(account));
        return Err(entry.error);
      }
      summary := summary + [entry.value];
      i := i + 1;
    }
    assert texts[..i] == texts;
    return Ok(WriteBalanceSummary(summary));
  }
}
