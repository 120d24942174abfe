/** The account-balance aggregator: reads balance summaries, adds every
    balance into the bucket of its month, and writes one summary row per
    month. */
module BalanceAggregate {
  import opened Results
  import opened Text
  import opened Ordering
  import opened Money
  import opened Dates
  import opened BalanceRows

  // ---------------------------------------------------------------- reading

  /** `_read_balance_summary` on the rows of a file: the header row is
      popped, and a file with no rows at all cannot pop it. */
  function ReadBalanceSummary(rows: seq<seq<string>>): (r: Result<seq<seq<string>>>)
    ensures r.Ok? <==> |rows| > 0
    ensures r.Ok? ==> rows == [rows[0]] + r.value
    ensures r.Err? ==> r.error == MissingHeader
  {
    if |rows| == 0 then Err(MissingHeader) else Ok(rows[1..])
  }

  // ---------------------------------------------------------------- adding

  /** The month buckets after some entries, and the error that stopped the
      additions, if one did. */
  datatype Outcome = Outcome(balances: map<string, string>, error: Option<Error>)

  /** The bucket a month starts from. */
  function Start(balances: map<string, string>, month: string): string {
    if month in balances then balances[month] else "0.00"
  }

  /** One row of `_add_balance_summary`: the month of the first cell is taken
      before the second cell is read; a month seen for the first time gets a
      "0.00" bucket, which stays even when the addition then fails. */
  function AddEntry(balances: map<string, string>, entry: seq<string>): (o: Outcome)
    ensures balances.Keys <= o.balances.Keys
  {
    if |entry| == 0 then Outcome(balances, Some(MissingCell))
    else
      match ToMonth(entry[0])
      case Err(e) => Outcome(balances, Some(e))
      case Ok(month) =>
        if |entry| < 2 then Outcome(balances, Some(MissingCell))
        else
          var seeded := balances[month := Start(balances, month)];
          match AddMoney(seeded[month], entry[1])
          case Err(e) => Outcome(seeded, Some(e))
          case Ok(sum) => Outcome(seeded[month := sum], None)
  }

  /** The rows one after another, stopping at the first failure. */
  function AddEntries(balances: map<string, string>, entries: seq<seq<string>>): Outcome
    decreases |entries|
  {
    if |entries| == 0 then Outcome(balances, None)
    else
      var o := AddEntry(balances, entries[0]);
      if o.error.Some? then o else AddEntries(o.balances, entries[1..])
  }

  /** `entry` is a row of month `month`. */
  predicate InMonth(entry: seq<string>, month: string) {
    |entry| > 0 && ToMonth(entry[0]) == Ok(month)
  }

  /** The balances of the rows of month `month`, in row order. */
  function MonthBalances(entries: seq<seq<string>>, month: string): seq<string>
    decreases |entries|
  {
    if |entries| == 0 then []
    else (if InMonth(entries[0], month) && |entries[0]| >= 2 then [entries[0][1]] else []) + MonthBalances(entries[1..], month)
  }

  /** Buckets are only ever created, never removed, even by a failing row; a
      month no row belongs to keeps its bucket, or its absence, unchanged. */
  lemma {:induction false} AddEntriesFrame(balances: map<string, string>, entries: seq<seq<string>>)
    ensures balances.Keys <= AddEntries(balances, entries).balances.Keys
    ensures forall month :: (forall i :: 0 <= i < |entries| ==> !InMonth(entries[i], month)) ==>
      (month in AddEntries(balances, entries).balances <==> month in balances)
      && (month in balances ==> AddEntries(balances, entries).balances[month] == balances[month])
    decreases |entries|
  {
    if |entries| > 0 {
      var o := AddEntry(balances, entries[0]);
      AddEntriesFrame(o.balances, entries[1..]);
      forall month | (forall i :: 0 <= i < |entries| ==> !InMonth(entries[i], month))
        ensures month in o.balances <==> month in balances
        ensures month in balances ==> o.balances[month] == balances[month]
        ensures forall i :: 0 <= i < |entries[1..]| ==> !InMonth(entries[1..][i], month)
      {
        assert !InMonth(entries[0], month);
        assert forall i :: 0 <= i < |entries[1..]| ==> entries[1..][i] == entries[i + 1];
      }
    }
  }

  /** A row that is added has two cells and a month, and sets its month's
      bucket to the bucket's start plus its balance. */
  lemma AddEntryOk(balances: map<string, string>, e: seq<string>)
    requires AddEntry(balances, e).error.None?
    ensures |e| >= 2 && ToMonth(e[0]).Ok?
    ensures var month := ToMonth(e[0]).value;
      && AddMoney(Start(balances, month), e[1]).Ok?
      && AddEntry(balances, e).balances == balances[month := AddMoney(Start(balances, month), e[1]).value]
  {
  }

  /** When every row is added, each bucket is the chained sum of its start
      and its month's balances in row order, and the buckets are the old ones
      plus one per month that has a row. */
  lemma {:induction false} AddEntriesBuckets(balances: map<string, string>, entries: seq<seq<string>>)
    requires AddEntries(balances, entries).error.None?
    ensures forall month :: month in AddEntries(balances, entries).balances <==> month in balances || MonthBalances(entries, month) != []
    ensures forall month :: month in AddEntries(balances, entries).balances ==>
      AddAll(Start(balances, month), MonthBalances(entries, month)) == Ok(AddEntries(balances, entries).balances[month])
    decreases |entries|
  {
    if |entries| > 0 {
      var e := entries[0];
      var o := AddEntry(balances, e);
      AddEntryOk(balances, e);
      var month0 := ToMonth(e[0]).value;
      var sum := AddMoney(Start(balances, month0), e[1]).value;
      assert o.balances == balances[month0 := sum];
      var final := AddEntries(o.balances, entries[1..]);
      assert AddEntries(balances, entries) == final;
      AddEntriesBuckets(o.balances, entries[1..]);
      forall month
        ensures month in final.balances <==> month in balances || MonthBalances(entries, month) != []
        ensures month in final.balances ==> AddAll(Start(balances, month), MonthBalances(entries, month)) == Ok(final.balances[month])
      {
        var tail := MonthBalances(entries[1..], month);
        if month == month0 {
          assert InMonth(e, month);
          assert MonthBalances(entries, month) == [e[1]] + tail;
          assert ([e[1]] + tail)[0] == e[1] && ([e[1]] + tail)[1..] == tail;
          assert Start(o.balances, month) == sum;
        } else {
          assert !InMonth(e, month);
          assert MonthBalances(entries, month) == tail;
          assert Start(o.balances, month) == Start(balances, month);
        }
      }
    }
  }

  /** Adding two lists of rows is adding the first, then the second from
      where the first left off. */
  lemma {:induction false} AddEntriesConcat(balances: map<string, string>, xs: seq<seq<string>>, ys: seq<seq<string>>)
    ensures AddEntries(balances, xs + ys) ==
      (var o := AddEntries(balances, xs); if o.error.Some? then o else AddEntries(o.balances, ys))
    decreases |xs|
  {
    if |xs| > 0 {
      assert (xs + ys)[0] == xs[0] && (xs + ys)[1..] == xs[1..] + ys;
      AddEntriesConcat(AddEntry(balances, xs[0]).balances, xs[1..], ys);
    } else {
      assert xs + ys == ys;
    }
  }

  /** A month whose first balance is below 1.00 gets an unpadded bucket such
      as ".50", and the month's next row then fails the money check. */
  lemma SmallFirstBalancePoisonsMonth(d1: string, a: string, d2: string, b: string, month: string)
    requires ToMonth(d1) == Ok(month) && ToMonth(d2) == Ok(month)
    requires IsMoney(a) && IsMoney(b) && Minor(a) < 100
    ensures AddEntries(map[], [[d1, a], [d2, b]]).error == Some(UnexpectedMoneyFormat("." + DecimalString(Minor(a))))
  {
    ZeroMinor();
    AddMoneyUnpadded("0.00", a);
    var o := AddEntry(map[], [d1, a]);
    assert o.balances[month] == "." + DecimalString(Minor(a));
    assert [[d1, a], [d2, b]][1..] == [[d2, b]];
    assert !IsMoney(o.balances[month]);
  }

  // ---------------------------------------------------------------- writing

  /** `rows` is the balance summary of `balances`: the header, then one row
      per bucket holding its month and its value, ordered. */
  predicate SummaryOf(rows: seq<seq<string>>, balances: map<string, string>) {
    && |rows| == |balances| + 1 && rows[0] == Header
    && (forall i :: 1 <= i < |rows| ==> |rows[i]| == 2 && rows[i][0] in balances && rows[i][1] == balances[rows[i][0]])
    && (forall month :: month in balances ==> exists i :: 1 <= i < |rows| && rows[i][0] == month)
    && SortedBy(Entries(rows[1..]), PairLe)
  }

  /** The body of `_add_balance_summary`'s loop on one row. */
  method AddEntryStep(balances: map<string, string>, entry: seq<string>) returns (o: Outcome)
    ensures o == AddEntry(balances, entry)
  {
    if |entry| == 0 {
      return Outcome(balances, Some(MissingCell));
    }
    var month := ToMonth(entry[0]);
    if month.Err? {
      return Outcome(balances, Some(month.error));
    }
    if |entry| < 2 {
      return Outcome(balances, Some(MissingCell));
    }
    var m := month.value;
    var b := balances;
    if m !in b {
      b := b[m := "0.00"];
    }
    var sum := AddMoney(b[m], entry[1]);
    if sum.Err? {
      return Outcome(b, Some(sum.error));
    }
    return Outcome(b[m := sum.value], None);
  }

  /** The dictionary of month buckets `_add_balance_summary` updates in place. */
  class BalanceSummary {
    var balances: map<string, string>

    constructor()
      ensures balances == map[]
    {
      balances := map[];
    }

    /** `_add_balance_summary`: adds the rows of one file into the buckets. */
    method AddBalanceSummary(entries: seq<seq<string>>) returns (error: Option<Error>)
      modifies this
      ensures Outcome(balances, error) == AddEntries(old(balances), entries)
    {
      var b := balances;
      var i := 0;
      while i < |entries|
        invariant 0 <= i <= |entries|
        invariant AddEntries(old(balances), entries) == AddEntries(b, entries[i..])
      {
        var entry := entries[i];
        var o := AddEntryStep(b, entry);
        assert entries[i..][0] == entry && entries[i..][1..] == entries[i + 1..];
        if o.error.Some? {
          balances := o.balances;
          return o.error;
        }
        b := o.balances;
        i := i + 1;
      }
      balances := b;
      return None;
    }

    /** `items()` of the dictionary, in some order: each bucket once, with
        its value. */
    method Items() returns (items: seq<(string, string)>)
      ensures |items| == |balances|
      ensures forall i :: 0 <= i < |items| ==> items[i].0 in balances && items[i].1 == balances[items[i].0]
      ensures forall month :: month in balances ==> exists i :: 0 <= i < |items| && items[i].0 == month
    {
      items := [];
      var remaining := balances.Keys;
      while remaining != {}
        invariant remaining <= balances.Keys
        invariant |items| + |remaining| == |balances|
        invariant forall i :: 0 <= i < |items| ==> items[i].0 in balances && items[i].0 !in remaining && items[i].1 == balances[items[i].0]
        invariant forall month :: month in balances && month !in remaining ==> exists i :: 0 <= i < |items| && items[i].0 == month
        decreases |remaining|
      {
        var month :| month in remaining;
        ghost var prev := items;
        items := items + [(month, balances[month])];
        remaining := remaining - {month};
        assert items[|prev|].0 == month;
        assert forall i :: 0 <= i < |prev| ==> items[i] == prev[i];
      }
    }

    /** `_write_balance_summary`: the items sorted, after the header. */
    method Write() returns (rows: seq<seq<string>>)
      ensures SummaryOf(rows, balances)
    {
      var items := Items();
      rows := WriteBalanceSummary(items);
      RowsOfItems(items, balances);
      ItemsInRows(items, balances);
    }
  }

  /** Every data row written from a dictionary's items is one of its buckets
      with that bucket's value. */
  lemma RowsOfItems(items: seq<(string, string)>, balances: map<string, string>)
    requires forall i :: 0 <= i < |items| ==> items[i].0 in balances && items[i].1 == balances[items[i].0]
    ensures var rows := WriteBalanceSummary(items);
      forall i :: 1 <= i < |rows| ==> |rows[i]| == 2 && rows[i][0] in balances && rows[i][1] == balances[rows[i][0]]
  {
    var rows := WriteBalanceSummary(items);
    forall i | 1 <= i < |rows| ensures rows[i][0] in balances && rows[i][1] == balances[rows[i][0]] {
      var e := Entries(rows[1..])[i - 1];
      assert e in multiset(items);
    }
  }

  /** Every bucket among a dictionary's items has a row of its own. */
  lemma ItemsInRows(items: seq<(string, string)>, balances: map<string, string>)
    requires forall month :: month in balances ==> exists i :: 0 <= i < |items| && items[i].0 == month
    ensures var rows := WriteBalanceSummary(items);
      forall month :: month in balances ==> exists i :: 1 <= i < |rows| && rows[i][0] == month
  {
    var rows := WriteBalanceSummary(items);
    forall month | month in balances ensures exists i :: 1 <= i < |rows| && rows[i][0] == month {
      var k :| 0 <= k < |items| && items[k].0 == month;
      assert items[k] in multiset(Entries(rows[1..]));
      var j :| 0 <= j < |rows| - 1 && Entries(rows[1..])[j] == items[k];
      assert rows[j + 1][0] == month;
    }
  }

  // ---------------------------------------------------------------- run

  /** The buckets after the files from `balances` on, each file read and then
      added. */
  function AggregateFrom(balances: map<string, string>, files: seq<seq<seq<string>>>): Result<map<string, string>>
    decreases |files|
  {
    if |files| == 0 then Ok(balances)
    else
      var entries :- ReadBalanceSummary(files[0]);
      var o := AddEntries(balances, entries);
      if o.error.Some? then Err(o.error.value) else AggregateFrom(o.balances, files[1..])
  }

  /** The rows of every file after its header, files in order. */
  function DataRows(files: seq<seq<seq<string>>>): seq<seq<string>>
    requires forall i :: 0 <= i < |files| ==> |files[i]| > 0
    decreases |files|
  {
    if |files| == 0 then [] else files[0][1..] + DataRows(files[1..])
  }

  /** With every file holding its header, aggregating the files is adding
      all their rows in one go. */
  lemma {:induction false} AggregateIsAddEntries(balances: map<string, string>, files: seq<seq<seq<string>>>)
    requires forall i :: 0 <= i < |files| ==> |files[i]| > 0
    ensures AggregateFrom(balances, files).Ok? <==> AddEntries(balances, DataRows(files)).error.None?
    ensures AggregateFrom(balances, files).Ok? ==> AggregateFrom(balances, files).value == AddEntries(balances, DataRows(files)).balances
    decreases |files|
  {
    if |files| > 0 {
      AddEntriesConcat(balances, files[0][1..], DataRows(files[1..]));
      var o := AddEntries(balances, files[0][1..]);
      if o.error.None? {
        AggregateIsAddEntries(o.balances, files[1..]);
      }
    }
  }

  /** A successful aggregation has one bucket per month that has a row, and
      the bucket is "0.00" plus that month's balances one after another in
      file and row order. */
  lemma AggregateBuckets(files: seq<seq<seq<string>>>)
    requires forall i :: 0 <= i < |files| ==> |files[i]| > 0
    requires AggregateFrom(map[], files).Ok?
    ensures forall month :: month in AggregateFrom(map[], files).value <==> MonthBalances(DataRows(files), month) != []
    ensures forall month :: month in AggregateFrom(map[], files).value ==>
      AddAll("0.00", MonthBalances(DataRows(files), month)) == Ok(AggregateFrom(map[], files).value[month])
  {
    AggregateIsAddEntries(map[], files);
    AddEntriesBuckets(map[], DataRows(files));
  }

  /** `run`: every file read and added in order, then the summary of the
      buckets; the first failing file or row aborts the run. */
  method Run(files: seq<seq<seq<string>>>) returns (r: Result<seq<seq<string>>>)
    ensures r.Ok? <==> AggregateFrom(map[], files).Ok?
    ensures r.Ok? ==> SummaryOf(r.value, AggregateFrom(map[], files).value)
    ensures r.Err? ==> r.error == AggregateFrom(map[], files).error
  {
    var summary := new BalanceSummary();
    var i := 0;
    while i < |files|
      invariant 0 <= i <= |files|
      invariant AggregateFrom(map[], files) == AggregateFrom(summary.balances, files[i..])
    {
      assert files[i..][1..] == files[i + 1..];
      var entries := ReadBalanceSummary(files[i]);
      if entries.Err? {
        return Err(entries.error);
      }
      var error := summary.AddBalanceSummary(entries.value);
      if error.Some? {
        return Err(error.value);
      }
      i := i + 1;
    }
    var rows := summary.Write();
    return Ok(rows);
  }
}
