/** The ledger combiner: reads several ledger files, merges them date by
    date, and writes one ledger. */
module Combine {
  import opened Results
  import opened Text
  import opened Ordering
  import opened Ledgers

  // ---------------------------------------------------------------- reading

  /** The reader's state: the dictionary of the file being read and the
      variable holding the current date, which keeps its value from one file
      to the next. */
  datatype ReadState = ReadState(sheet: Ledger, current: Option<string>)

  /** One row of `_read_budget_tracking_spreadsheets`: a one-cell row is a
      date, made current and given an empty list if it has none; a two-cell
      row is appended to the current date's list, which fails when no date
      row has been read yet (an unbound variable) or the current date is not
      a key of this file's dictionary; any other row is skipped. */
  function ReadRow(st: ReadState, row: seq<string>): Result<ReadState> {
    if |row| == 1 then
      var date := row[0];
      if date in st.sheet.entries then Ok(ReadState(st.sheet, Some(date)))
      else Ok(ReadState(Ledger(st.sheet.dates + [date], st.sheet.entries[date := []]), Some(date)))
    else if |row| == 2 then
      match st.current
      case None => Err(NoCurrentDate)
      case Some(date) =>
        if date in st.sheet.entries then
          Ok(st.(sheet := st.sheet.(entries := st.sheet.entries[date := st.sheet.entries[date] + [Entry(row[0], row[1])]])))
        else Err(NoCurrentDate)
    else Ok(st)
  }

  /** A row of neither one nor two cells is skipped. */
  lemma ReadRowSkips(st: ReadState, row: seq<string>)
    requires |row| != 1 && |row| != 2
    ensures ReadRow(st, row) == Ok(st)
  {
  }

  /** A date row makes its date current. A date already read in this file
      keeps its position and its entries; a new date is appended with an
      empty list. */
  lemma ReadRowDate(st: ReadState, date: string)
    ensures ReadRow(st, [date]).Ok? && ReadRow(st, [date]).value.current == Some(date)
    ensures date in st.sheet.entries ==> ReadRow(st, [date]).value.sheet == st.sheet
    ensures date !in st.sheet.entries ==>
      ReadRow(st, [date]).value.sheet.dates == st.sheet.dates + [date] &&
      ReadRow(st, [date]).value.sheet.entries == st.sheet.entries[date := []]
  {
  }

  /** An entry row appends its description and amount to the current date's
      list and changes nothing else; with no current date of this file it
      fails. */
  lemma ReadRowEntry(st: ReadState, description: string, amount: string)
    ensures st.current.Some? && st.current.value in st.sheet.entries ==>
      var d := st.current.value;
      ReadRow(st, [description, amount]) == Ok(ReadState(
        Ledger(st.sheet.dates, st.sheet.entries[d := st.sheet.entries[d] + [Entry(description, amount)]]), st.current))
    ensures st.current.None? || st.current.value !in st.sheet.entries ==>
      ReadRow(st, [description, amount]) == Err(NoCurrentDate)
  {
  }

  /** The rows one after another, stopping at the first failure. */
  function ReadRows(st: ReadState, rows: seq<seq<string>>): Result<ReadState>
    decreases |rows|
  {
    if |rows| == 0 then Ok(st)
    else
      var next :- ReadRow(st, rows[0]);
      ReadRows(next, rows[1..])
  }

  /** A file is read into a fresh dictionary. */
  function Fresh(current: Option<string>): ReadState {
    ReadState(Ledger([], map[]), current)
  }

  /** The files one after another, each into its own dictionary, the current
      date carried over from one file to the next. */
  function ReadAll(files: seq<seq<seq<string>>>, current: Option<string>): Result<seq<Ledger>>
    decreases |files|
  {
    if |files| == 0 then Ok([])
    else
      var st :- ReadRows(Fresh(current), files[0]);
      var rest :- ReadAll(files[1..], st.current);
      Ok([st.sheet] + rest)
  }

  /** Reading keeps the dictionary valid, and keeps the current date a key
      of it once there is one. */
  lemma {:induction false} ReadRowsValid(st: ReadState, rows: seq<seq<string>>)
    requires Valid(st.sheet)
    requires ReadRows(st, rows).Ok?
    ensures Valid(ReadRows(st, rows).value.sheet)
    decreases |rows|
  {
    if |rows| > 0 {
      var next := ReadRow(st, rows[0]).value;
      if |rows[0]| == 1 && rows[0][0] !in st.sheet.entries {
        var d := rows[0][0];
        assert forall i, j :: 0 <= i < j < |next.sheet.dates| ==> next.sheet.dates[i] != next.sheet.dates[j] by {
          assert forall i :: 0 <= i < |st.sheet.dates| ==> next.sheet.dates[i] == st.sheet.dates[i] != d;
        }
      }
      ReadRowsValid(next, rows[1..]);
    }
  }

  /** Reading two lists of rows is reading the first, then the second from
      where the first left off. */
  lemma {:induction false} ReadRowsConcat(st: ReadState, xs: seq<seq<string>>, ys: seq<seq<string>>)
    ensures ReadRows(st, xs + ys) == (var mid :- ReadRows(st, xs); ReadRows(mid, ys))
    decreases |xs|
  {
    if |xs| > 0 {
      assert (xs + ys)[0] == xs[0] && (xs + ys)[1..] == xs[1..] + ys;
      if ReadRow(st, xs[0]).Ok? {
        ReadRowsConcat(ReadRow(st, xs[0]).value, xs[1..], ys);
      }
    } else {
      assert xs + ys == ys;
    }
  }

  /** An entry row met before any date row of its file fails, whatever date
      an earlier file left current. */
  lemma {:induction false} EntryBeforeDateFails(current: Option<string>, rows: seq<seq<string>>, k: nat)
    requires k < |rows| && |rows[k]| == 2
    requires forall j :: 0 <= j < k ==> |rows[j]| != 1 && |rows[j]| != 2
    ensures ReadRows(Fresh(current), rows) == Err(NoCurrentDate)
    decreases k
  {
    if k > 0 {
      assert rows[1..][k - 1] == rows[k];
      EntryBeforeDateFails(current, rows[1..], k - 1);
    }
  }

  /** `_read_budget_tracking_spreadsheets`: one dictionary per file, in file
      order. */
  method ReadSpreadsheets(files: seq<seq<seq<string>>>) returns (r: Result<seq<Ledger>>)
    ensures r == ReadAll(files, None)
  {
    var sheets: seq<Ledger> := [];
    var current: Option<string> := None;
    var i := 0;
    assert files[0..] == files;
    assert forall rest: seq<Ledger> :: [] + rest == rest;
    while i < |files|
      invariant 0 <= i <= |files|
      invariant ReadAll(files, None) == (var rest :- ReadAll(files[i..], current); Ok(sheets + rest))
    {
      assert files[i..][0] == files[i] && files[i..][1..] == files[i + 1..];
      var st := ReadSheet(files[i], current);
      if st.Err? {
        return Err(st.error);
      }
      assert forall rest: seq<Ledger> :: sheets + ([st.value.sheet] + rest) == (sheets + [st.value.sheet]) + rest;
      sheets := sheets + [st.value.sheet];
      current := st.value.current;
      i := i + 1;
    }
    assert sheets + [] == sheets;
    return Ok(sheets);
  }

  /** The inner loop of the reader: the rows of one file. */
  method ReadSheet(rows: seq<seq<string>>, current: Option<string>) returns (r: Result<ReadState>)
    ensures r == ReadRows(Fresh(current), rows)
  {
    var st := Fresh(current);
    var i := 0;
    while i < |rows|
      invariant 0 <= i <= |rows|
      invariant ReadRows(Fresh(current), rows) == ReadRows(st, rows[i..])
    {
      assert rows[i..][0] == rows[i] && rows[i..][1..] == rows[i + 1..];
      var row := rows[i];
      if |row| == 1 {
        var date := row[0];
        if date !in st.sheet.entries {
          st := st.(sheet := Ledger(st.sheet.dates + [date], st.sheet.entries[date := []]));
        }
        st := st.(current := Some(date));
      } else if |row| == 2 {
        if st.current.None? || st.current.value !in st.sheet.entries {
          return Err(NoCurrentDate);
        }
        var date := st.current.value;
        st := st.(sheet := st.sheet.(entries := st.sheet.entries[date := st.sheet.entries[date] + [Entry(row[0], row[1])]]));
      }
      i := i + 1;
    }
    return Ok(st);
  }

  // ---------------------------------------------------------------- reading back what was written

  /** The entry rows of a block. */
  function EntryRows(es: seq<Entry>): seq<seq<string>> {
    seq(|es|, i requires 0 <= i < |es| => [es[i].description, es[i].amount])
  }

  /** Reading entry rows appends them to the current date's list. */
  lemma {:induction false} ReadEntryRows(st: ReadState, d: string, es: seq<Entry>)
    requires st.current == Some(d) && d in st.sheet.entries
    ensures ReadRows(st, EntryRows(es)) == Ok(st.(sheet := st.sheet.(entries := st.sheet.entries[d := st.sheet.entries[d] + es])))
    decreases |es|
  {
    if |es| == 0 {
      assert st.sheet.entries[d] + es == st.sheet.entries[d];
      assert st.sheet.entries[d := st.sheet.entries[d] + es] == st.sheet.entries;
    } else {
      var init := es[..|es| - 1];
      var last := es[|es| - 1];
      assert EntryRows(es) == EntryRows(init) + [[last.description, last.amount]];
      ReadRowsConcat(st, EntryRows(init), [[last.description, last.amount]]);
      ReadEntryRows(st, d, init);
      var mid := st.(sheet := st.sheet.(entries := st.sheet.entries[d := st.sheet.entries[d] + init]));
      var row: seq<string> := [last.description, last.amount];
      assert |[row][1..]| == 0;
      assert ReadRows(mid, [row]) == ReadRow(mid, row);
      assert Entry(row[0], row[1]) == last;
      assert (st.sheet.entries[d] + init) + [last] == st.sheet.entries[d] + es;
      assert mid.sheet.entries[d := mid.sheet.entries[d] + [last]] == st.sheet.entries[d := st.sheet.entries[d] + es];
    }
  }

  /** Reading a block of a date the dictionary lacks adds the date with the
      block's entries and makes it current. */
  lemma ReadBlock(st: ReadState, d: string, es: seq<Entry>)
    requires d !in st.sheet.entries
    ensures ReadRows(st, Block(d, es)) == Ok(ReadState(Ledger(st.sheet.dates + [d], st.sheet.entries[d := es]), Some(d)))
  {
    assert Block(d, es) == [[d]] + EntryRows(es);
    ReadRowsConcat(st, [[d]], EntryRows(es));
    var mid := ReadState(Ledger(st.sheet.dates + [d], st.sheet.entries[d := []]), Some(d));
    var dateRow: seq<string> := [d];
    assert ReadRows(st, [dateRow]) == Ok(mid) by {
      assert |[dateRow][1..]| == 0;
      assert ReadRow(st, dateRow) == Ok(mid);
    }
    ReadEntryRows(mid, d, es);
    assert mid.sheet.entries[d] + es == es;
    assert mid.sheet.entries[d := mid.sheet.entries[d] + es] == st.sheet.entries[d := es];
  }

  /** Reading the blocks of distinct dates into a fresh dictionary gives
      back those dates, in order, with their entries. */
  lemma {:induction false} ReadLedgerRows(entries: map<string, seq<Entry>>, dates: seq<string>, current: Option<string>)
    requires Distinct(dates) && forall i :: 0 <= i < |dates| ==> dates[i] in entries
    ensures ReadRows(Fresh(current), LedgerRows(entries, dates)).Ok?
    ensures ReadRows(Fresh(current), LedgerRows(entries, dates)).value.sheet == Ledger(dates, map d | d in dates :: entries[d])
    decreases |dates|
  {
    if |dates| > 0 {
      var init := dates[..|dates| - 1];
      var last := dates[|dates| - 1];
      assert forall i :: 0 <= i < |init| ==> init[i] == dates[i];
      assert Distinct(init);
      ReadLedgerRows(entries, init, current);
      ReadRowsConcat(Fresh(current), LedgerRows(entries, init), Block(last, entries[last]));
      var mid := ReadRows(Fresh(current), LedgerRows(entries, init)).value;
      assert last !in init;
      ReadBlock(mid, last, entries[last]);
      assert init + [last] == dates;
      assert (map d | d in init :: entries[d])[last := entries[last]] == map d | d in dates :: entries[d];
    }
  }

  /** Writing a ledger and reading it back reproduces its dictionary, keys
      now in ascending order. */
  lemma WriteThenRead(l: Ledger, current: Option<string>)
    requires Valid(l)
    ensures ReadRows(Fresh(current), LedgerRows(l.entries, SortedKeys(l))).Ok?
    ensures ReadRows(Fresh(current), LedgerRows(l.entries, SortedKeys(l))).value.sheet == Ledger(SortedKeys(l), l.entries)
  {
    SortedDates(l);
    var dates := SortedKeys(l);
    assert Distinct(dates) by {
      forall i, j | 0 <= i < j < |dates| ensures dates[i] != dates[j] {
        assert StrLt(dates[i], dates[j]);
      }
    }
    ReadLedgerRows(l.entries, dates, current);
    assert (map d | d in dates :: l.entries[d]) == l.entries;
  }

  /** Reading back the ledger written for a list of records gives the
      records grouped by date: each date of theirs with its records'
      entries in input order. */
  lemma RecordsRoundTrip(records: seq<Record>, current: Option<string>)
    ensures ReadRows(Fresh(current), RecordRows(records)).Ok?
    ensures ReadRows(Fresh(current), RecordRows(records)).value.sheet.entries == Grouped(records)
  {
    GroupedValid(records);
    WriteThenRead(Ledger(FirstAppearance(records), Grouped(records)), current);
  }

  // ---------------------------------------------------------------- combining

  /** The lists of date `d` in the dictionaries, concatenated in order. */
  function Concatenated(sheets: seq<Ledger>, d: string): seq<Entry>
    decreases |sheets|
  {
    if |sheets| == 0 then []
    else
      var last := sheets[|sheets| - 1];
      Concatenated(sheets[..|sheets| - 1], d) + (if d in last.entries then last.entries[d] else [])
  }

  /** Every date any of the dictionaries has. */
  function AllDates(sheets: seq<Ledger>): set<string>
    decreases |sheets|
  {
    if |sheets| == 0 then {} else AllDates(sheets[..|sheets| - 1]) + sheets[|sheets| - 1].entries.Keys
  }

  /** The combined dictionary: the union of the keys, each date's lists
      concatenated in file order. */
  function Combined(sheets: seq<Ledger>): map<string, seq<Entry>> {
    map d | d in AllDates(sheets) :: Concatenated(sheets, d)
  }

  /** The merged dates are exactly the dates of some input ledger. */
  lemma {:induction false} AllDatesMembers(sheets: seq<Ledger>)
    ensures forall d :: d in AllDates(sheets) <==> exists i :: 0 <= i < |sheets| && d in sheets[i].entries
    decreases |sheets|
  {
    if |sheets| > 0 {
      var init := sheets[..|sheets| - 1];
      AllDatesMembers(init);
      assert forall i :: 0 <= i < |init| ==> init[i] == sheets[i];
    }
  }

  /** A date of no dictionary collects no entries. */
  lemma {:induction false} ConcatenatedAbsent(sheets: seq<Ledger>, d: string)
    requires d !in AllDates(sheets)
    ensures Concatenated(sheets, d) == []
    decreases |sheets|
  {
    if |sheets| > 0 {
      ConcatenatedAbsent(sheets[..|sheets| - 1], d);
    }
  }

  /** Combining one dictionary gives its contents back. */
  lemma CombinedOne(s: Ledger)
    ensures Combined([s]) == s.entries
  {
    assert [s][..0] == [];
    assert AllDates([s]) == s.entries.Keys;
    forall d | d in s.entries ensures Concatenated([s], d) == s.entries[d] {
      assert [] + s.entries[d] == s.entries[d];
    }
  }

  /** Combining is associative in the sense that matters here: combining a
      list of dictionaries and then one more is combining them all. */
  lemma CombinedSnoc(sheets: seq<Ledger>, s: Ledger)
    ensures forall d :: d in Combined(sheets + [s]) <==> d in Combined(sheets) || d in s.entries
    ensures forall d :: d in Combined(sheets + [s]) ==>
      Combined(sheets + [s])[d] == (if d in Combined(sheets) then Combined(sheets)[d] else []) + (if d in s.entries then s.entries[d] else [])
  {
    assert (sheets + [s])[..|sheets|] == sheets;
    forall d | d in Combined(sheets + [s]) && d !in Combined(sheets) ensures Concatenated(sheets, d) == [] {
      ConcatenatedAbsent(sheets, d);
    }
  }

  /** One date of an input dictionary added to the combined one: the date
      gets an empty list if it has none, then the input's list appended. */
  function AddDate(c: Ledger, date: string, es: seq<Entry>): (c': Ledger)
    ensures forall d :: d in c'.entries <==> d in c.entries || d == date
    ensures forall d :: d in c'.entries ==>
      c'.entries[d] == (if d in c.entries then c.entries[d] else []) + (if d == date then es else [])
  {
    var base := if date in c.entries then c else Ledger(c.dates + [date], c.entries[date := []]);
    base.(entries := base.entries[date := base.entries[date] + es])
  }

  /** Adding a date's entries keeps a ledger valid. */
  lemma AddDateValid(c: Ledger, date: string, es: seq<Entry>)
    requires Valid(c)
    ensures Valid(AddDate(c, date, es))
  {
    if date !in c.entries {
      assert forall i :: 0 <= i < |c.dates| ==> c.dates[i] != date;
    }
  }

  /** The part of `_combine_budget_tracking_spreadsheets` for one input
      dictionary: each of its dates, in its key order, is added to the
      combined dictionary. */
  method ExtendWith(c: Ledger, s: Ledger) returns (c': Ledger)
    requires Valid(c) && Valid(s)
    ensures Valid(c')
    ensures forall d :: d in c'.entries <==> d in c.entries || d in s.entries
    ensures forall d :: d in c'.entries ==>
      c'.entries[d] == (if d in c.entries then c.entries[d] else []) + (if d in s.entries then s.entries[d] else [])
  {
    c' := c;
    var j := 0;
    while j < |s.dates|
      invariant 0 <= j <= |s.dates|
      invariant Valid(c')
      invariant forall d :: d in c'.entries <==> d in c.entries || d in s.dates[..j]
      invariant forall d :: d in c'.entries ==>
        c'.entries[d] == (if d in c.entries then c.entries[d] else []) + (if d in s.dates[..j] then s.entries[d] else [])
    {
      var date := s.dates[j];
      assert date !in s.dates[..j];
      AddDateValid(c', date, s.entries[date]);
      c' := AddDate(c', date, s.entries[date]);
      assert s.dates[..j + 1] == s.dates[..j] + [date];
      j := j + 1;
    }
    assert s.dates[..j] == s.dates;
  }

  /** `_combine_budget_tracking_spreadsheets`. */
  method CombineSheets(sheets: seq<Ledger>) returns (c: Ledger)
    requires forall i :: 0 <= i < |sheets| ==> Valid(sheets[i])
    ensures Valid(c) && c.entries == Combined(sheets)
  {
    c := Ledger([], map[]);
    var i := 0;
    while i < |sheets|
      invariant 0 <= i <= |sheets|
      invariant Valid(c) && c.entries == Combined(sheets[..i])
    {
      CombinedSnoc(sheets[..i], sheets[i]);
      assert sheets[..i + 1] == sheets[..i] + [sheets[i]];
      c := ExtendWith(c, sheets[i]);
      i := i + 1;
    }
    assert sheets[..i] == sheets;
  }

  /** The combined dictionary has every date of any input, and for each
      date the inputs' lists one after another, nothing dropped or merged. */
  lemma CombinedContents(sheets: seq<Ledger>)
    ensures forall d :: d in Combined(sheets) <==> exists i :: 0 <= i < |sheets| && d in sheets[i].entries
    ensures forall d :: d in Combined(sheets) ==> Combined(sheets)[d] == Concatenated(sheets, d)
  {
    AllDatesMembers(sheets);
  }

  // ---------------------------------------------------------------- run

  /** Every dictionary the reader returns is a valid one. */
  lemma {:induction false} ReadAllValid(files: seq<seq<seq<string>>>, current: Option<string>)
    requires ReadAll(files, current).Ok?
    ensures forall i :: 0 <= i < |ReadAll(files, current).value| ==> Valid(ReadAll(files, current).value[i])
    decreases |files|
  {
    if |files| > 0 {
      var st := ReadRows(Fresh(current), files[0]).value;
      ReadRowsValid(Fresh(current), files[0]);
      ReadAllValid(files[1..], st.current);
    }
  }

  /** `run`: read every file, combine, write. */
  method Run(files: seq<seq<seq<string>>>) returns (r: Result<seq<seq<string>>>)
    ensures r.Ok? <==> ReadAll(files, None).Ok?
    ensures r.Err? ==> r.error == ReadAll(files, None).error
    ensures r.Ok? ==> exists c :: Valid(c) && c.entries == Combined(ReadAll(files, None).value) && r.value == LedgerRows(c.entries, SortedKeys(c))
  {
    var sheets := ReadSpreadsheets(files);
    if sheets.Err? {
      return Err(sheets.error);
    }
    ReadAllValid(files, None);
    var c := CombineSheets(sheets.value);
    var rows := WriteLedger(c);
    return Ok(rows);
  }
}
