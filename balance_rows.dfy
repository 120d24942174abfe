/** The balance summary file every account-balance tool writes: a
    `date,balance` header, then one row per entry in ascending order. */
module BalanceRows {
  import opened Ordering

  const Header: seq<string> := ["date", "balance"]

  /** The two-cell row of an entry. */
  function Row(e: (string, string)): seq<string> {
    [e.0, e.1]
  }

  /** The entries the data rows of a summary hold. */
  function Entries(rows: seq<seq<string>>): seq<(string, string)>
    requires forall i :: 0 <= i < |rows| ==> |rows[i]| == 2
  {
    seq(|rows|, i requires 0 <= i < |rows| => (rows[i][0], rows[i][1]))
  }

  /** `_write_balance_summary`: the header row, then the entries ordered as
      Python orders `[date, balance]` lists. */
  function WriteBalanceSummary(entries: seq<(string, string)>): (rows: seq<seq<string>>)
    ensures |rows| == |entries| + 1 && rows[0] == Header
    ensures forall i :: 1 <= i < |rows| ==> |rows[i]| == 2
    ensures multiset(Entries(rows[1..])) == multiset(entries)
    ensures SortedBy(Entries(rows[1..]), PairLe)
  {
    var sorted := Sort(entries, PairLe);
    var rows := [Header] + seq(|sorted|, i requires 0 <= i < |sorted| => Row(sorted[i]));
    assert Entries(rows[1..]) == sorted;
    PairLeIsTotalOrder();
    SortSorted(entries, PairLe);
    rows
  }

  /** The data rows are the only ordered arrangement of the entries, so the
      file does not depend on the order the entries were collected in. */
  lemma WriteBalanceSummaryUnique(entries: seq<(string, string)>, ordered: seq<(string, string)>)
    requires multiset(ordered) == multiset(entries) && SortedBy(ordered, PairLe)
    ensures Entries(WriteBalanceSummary(entries)[1..]) == ordered
  {
    PairLeIsTotalOrder();
    SortedUnique(Entries(WriteBalanceSummary(entries)[1..]), ordered, PairLe);
  }

  /** Collecting the same entries in another order writes the same file. */
  lemma WriteBalanceSummaryOrderFree(a: seq<(string, string)>, b: seq<(string, string)>)
    requires multiset(a) == multiset(b)
    ensures WriteBalanceSummary(a) == WriteBalanceSummary(b)
  {
    var ra, rb := WriteBalanceSummary(a), WriteBalanceSummary(b);
    WriteBalanceSummaryUnique(b, Entries(ra[1..]));
    assert ra == [ra[0]] + ra[1..] && rb == [rb[0]] + rb[1..];
    assert forall i :: 0 <= i < |ra| - 1 ==> ra[1..][i] == Row(Entries(ra[1..])[i]);
    assert forall i :: 0 <= i < |rb| - 1 ==> rb[1..][i] == Row(Entries(rb[1..])[i]);
  }
}
