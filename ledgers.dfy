/** Budget-tracking ledgers: the `{date, description, amount}` records the
    statement parsers produce, the date-keyed dictionary of entry lists they
    group them into, and the rows the ledger file holds (a one-cell date row,
    then one two-cell row per entry of that date, dates ascending). */
module Ledgers {
  import opened Text
  import opened Ordering

  datatype Record = Record(date: string, description: string, amount: string)

  /** An entry of a ledger: a record without its date. */
  datatype Entry = Entry(description: string, amount: string)

  function EntryOf(r: Record): Entry {
    Entry(r.description, r.amount)
  }

  /** A Python dictionary from dates to entry lists: its keys in insertion
      order and its contents. */
  datatype Ledger = Ledger(dates: seq<string>, entries: map<string, seq<Entry>>)

  /** The key order lists each key of the dictionary exactly once. */
  ghost predicate Valid(l: Ledger) {
    Distinct(l.dates) && forall d :: d in l.entries <==> d in l.dates
  }

  // ---------------------------------------------------------------- grouping

  /** The entries of the records dated `date`, in record order. */
  function On(records: seq<Record>, date: string): seq<Entry>
    decreases |records|
  {
    if |records| == 0 then []
    else
      var last := records[|records| - 1];
      On(records[..|records| - 1], date) + (if last.date == date then [EntryOf(last)] else [])
  }

  /** The dates of the records, each once, in order of first appearance. */
  function FirstAppearance(records: seq<Record>): seq<string>
    decreases |records|
  {
    if |records| == 0 then []
    else
      var dates := FirstAppearance(records[..|records| - 1]);
      var last := records[|records| - 1];
      if last.date in dates then dates else dates + [last.date]
  }

  /** The records grouped by date. */
  function Grouped(records: seq<Record>): map<string, seq<Entry>> {
    map d | d in FirstAppearance(records) :: On(records, d)
  }

  /** Each date of the records is listed once, and nothing else is. */
  lemma {:induction false} FirstAppearanceDates(records: seq<Record>)
    ensures Distinct(FirstAppearance(records))
    ensures forall d :: d in FirstAppearance(records) <==> exists i :: 0 <= i < |records| && records[i].date == d
    decreases |records|
  {
    if |records| > 0 {
      var init := records[..|records| - 1];
      FirstAppearanceDates(init);
      assert forall i :: 0 <= i < |init| ==> init[i] == records[i];
    }
  }

  /** A date no record carries has no entries. */
  lemma {:induction false} OnAbsent(records: seq<Record>, date: string)
    requires forall i :: 0 <= i < |records| ==> records[i].date != date
    ensures On(records, date) == []
    decreases |records|
  {
    if |records| > 0 {
      var init := records[..|records| - 1];
      assert forall i :: 0 <= i < |init| ==> init[i] == records[i];
      OnAbsent(init, date);
    }
  }

  /** `_write_records`' first loop: every record is appended to the list of
      its date, a date seen for the first time getting an empty list. */
  method GroupByDate(records: seq<Record>) returns (l: Ledger)
    ensures l == Ledger(FirstAppearance(records), Grouped(records))
  {
    l := Ledger([], map[]);
    var i := 0;
    while i < |records|
      invariant 0 <= i <= |records|
      invariant l.dates == FirstAppearance(records[..i])
      invariant forall d :: d in l.entries <==> d in l.dates
      invariant forall d :: d in l.entries ==> l.entries[d] == On(records[..i], d)
      invariant forall d :: d !in l.entries ==> On(records[..i], d) == []
    {
      var r := records[i];
      assert records[..i + 1][..i] == records[..i];
      if r.date !in l.entries {
        l := Ledger(l.dates + [r.date], l.entries[r.date := []]);
      }
      l := l.(entries := l.entries[r.date := l.entries[r.date] + [EntryOf(r)]]);
      i := i + 1;
    }
    assert records[..i] == records;
  }

  /** The grouped dictionary is a valid one, keyed by exactly the records'
      dates, and each date's list is its records in input order. */
  lemma GroupedValid(records: seq<Record>)
    ensures Valid(Ledger(FirstAppearance(records), Grouped(records)))
    ensures forall d :: d in Grouped(records) <==> exists i :: 0 <= i < |records| && records[i].date == d
    ensures forall i :: 0 <= i < |records| ==> EntryOf(records[i]) in Grouped(records)[records[i].date]
  {
    FirstAppearanceDates(records);
    forall i | 0 <= i < |records| ensures EntryOf(records[i]) in On(records, records[i].date) {
      OnHasRecord(records, i);
    }
  }

  /** Every record's entry is in the group of its date. */
  lemma {:induction false} OnHasRecord(records: seq<Record>, i: nat)
    requires i < |records|
    ensures EntryOf(records[i]) in On(records, records[i].date)
    decreases |records|
  {
    var init := records[..|records| - 1];
    if i < |init| {
      assert init[i] == records[i];
      OnHasRecord(init, i);
    }
  }

  // ---------------------------------------------------------------- writing

  /** The rows of one date: its one-cell date row, then its entries. */
  function Block(date: string, entries: seq<Entry>): seq<seq<string>> {
    [[date]] + seq(|entries|, i requires 0 <= i < |entries| => [entries[i].description, entries[i].amount])
  }

  /** The blocks of `dates`, in that order. */
  function LedgerRows(entries: map<string, seq<Entry>>, dates: seq<string>): seq<seq<string>>
    requires forall i :: 0 <= i < |dates| ==> dates[i] in entries
    decreases |dates|
  {
    if |dates| == 0 then []
    else LedgerRows(entries, dates[..|dates| - 1]) + Block(dates[|dates| - 1], entries[dates[|dates| - 1]])
  }

  /** The dates of a valid ledger, sorted, are its keys in strictly
      ascending order. */
  lemma SortedDates(l: Ledger)
    requires Valid(l)
    ensures forall d :: d in l.entries <==> d in Sort(l.dates, StrLe)
    ensures forall i, j :: 0 <= i < j < |Sort(l.dates, StrLe)| ==> StrLt(Sort(l.dates, StrLe)[i], Sort(l.dates, StrLe)[j])
  {
    var s := Sort(l.dates, StrLe);
    StrLeIsTotalOrder();
    SortSorted(l.dates, StrLe);
    SortDistinct(l.dates, StrLe);
    forall d ensures d in s <==> d in l.dates {
      assert d in s <==> d in multiset(s);
    }
  }

  /** The keys of a valid ledger in ascending order. */
  function SortedKeys(l: Ledger): (dates: seq<string>)
    requires Valid(l)
    ensures forall i :: 0 <= i < |dates| ==> dates[i] in l.entries
  {
    SortedDates(l);
    Sort(l.dates, StrLe)
  }

  /** The inner loop of the writer: one date's rows. */
  method WriteBlock(date: string, es: seq<Entry>) returns (rows: seq<seq<string>>)
    ensures rows == Block(date, es)
  {
    rows := [[date]];
    var j := 0;
    while j < |es|
      invariant 0 <= j <= |es|
      invariant rows == Block(date, es)[..j + 1]
    {
      assert Block(date, es)[..j + 2] == Block(date, es)[..j + 1] + [[es[j].description, es[j].amount]];
      rows := rows + [[es[j].description, es[j].amount]];
      j := j + 1;
    }
    assert Block(date, es)[..j + 1] == Block(date, es);
  }

  /** `_write_records`' second loop: each date in ascending order as a
      one-cell row, followed by its entries' two-cell rows. */
  method WriteLedger(l: Ledger) returns (rows: seq<seq<string>>)
    requires Valid(l)
    ensures rows == LedgerRows(l.entries, SortedKeys(l))
  {
    var dates := SortedKeys(l);
    rows := [];
    var i := 0;
    while i < |dates|
      invariant 0 <= i <= |dates|
      invariant rows == LedgerRows(l.entries, dates[..i])
    {
      var block := WriteBlock(dates[i], l.entries[dates[i]]);
      rows := rows + block;
      assert dates[..i + 1][..i] == dates[..i];
      i := i + 1;
    }
    assert dates[..i] == dates;
  }

  /** A distinct list holds each of its elements once. */
  lemma {:induction false} DistinctMultiset<T>(s: seq<T>, x: T)
    requires Distinct(s)
    ensures multiset(s)[x] == if x in s then 1 else 0
    decreases |s|
  {
    if |s| > 0 {
      assert s == [s[0]] + s[1..];
      assert Distinct(s[1..]) by {
        assert forall i, j :: 0 <= i < j < |s[1..]| ==> s[1..][i] == s[i + 1] && s[1..][j] == s[j + 1];
      }
      DistinctMultiset(s[1..], x);
    }
  }

  /** The written rows depend only on the dictionary's contents, not on the
      order its keys were inserted in. */
  lemma WriteLedgerOrderFree(a: Ledger, b: Ledger)
    requires Valid(a) && Valid(b) && a.entries == b.entries
    ensures SortedKeys(a) == SortedKeys(b)
    ensures LedgerRows(a.entries, SortedKeys(a)) == LedgerRows(b.entries, SortedKeys(b))
  {
    forall x ensures multiset(a.dates)[x] == multiset(b.dates)[x] {
      DistinctMultiset(a.dates, x);
      DistinctMultiset(b.dates, x);
    }
    assert multiset(a.dates) == multiset(b.dates);
    StrLeIsTotalOrder();
    SortSorted(a.dates, StrLe);
    SortSorted(b.dates, StrLe);
    SortedUnique(Sort(a.dates, StrLe), Sort(b.dates, StrLe), StrLe);
  }

  /** The rows written for a list of records: its dates ascending, each
      with the entries of its records in input order. */
  function RecordRows(records: seq<Record>): seq<seq<string>> {
    GroupedValid(records);
    LedgerRows(Grouped(records), SortedKeys(Ledger(FirstAppearance(records), Grouped(records))))
  }

  /** `_write_records`: the records grouped by date, then written. */
  method WriteRecords(records: seq<Record>) returns (rows: seq<seq<string>>)
    ensures Valid(Ledger(FirstAppearance(records), Grouped(records)))
    ensures rows == RecordRows(records)
  {
    var l := GroupByDate(records);
    GroupedValid(records);
    rows := WriteLedger(l);
  }
}
