/** The Chase budget-tracking statement parser. Each exported file holds its
    transactions' dates, then their descriptions, then their amounts, one per
    line in three equal blocks; the records of all files are written as one
    ledger. */
module ChaseBudget {
  import opened Results
  import opened Text
  import opened Ledgers
  import opened Descriptions

  /** `zip(dates, descriptions, amounts)` over a file's three blocks of `n`
      lines. */
  function Triples(lines: seq<string>, n: nat): (ts: seq<(string, string, string)>)
    requires |lines| == 3 * n
    ensures |ts| == n
    ensures forall i :: 0 <= i < n ==> ts[i] == (lines[i], lines[n + i], lines[2 * n + i])
  {
    seq(n, i requires 0 <= i < n => (lines[i], lines[n + i], lines[2 * n + i]))
  }

  /** One record: the stripped date, the stripped description in big camel
      case, the stripped amount. */
  function RecordOf(t: (string, string, string)): Result<Record> {
    var description :- BigCamel(Strip(t.1));
    Ok(Record(Strip(t.0), description, Strip(t.2)))
  }

  /** A triple becomes a record exactly when its stripped description
      capitalises. */
  lemma RecordOfOk(t: (string, string, string))
    ensures RecordOf(t).Ok? <==> BigCamel(Strip(t.1)).Ok?
  {
  }

  /** One file of `_parse_statement`: a line count that is not a multiple of
      three is refused before any record is made. */
  function ParseFile(lines: seq<string>): (r: Result<seq<Record>>)
    ensures (r.Err? && r.error == UnexpectedLineCount) <==> |lines| % 3 != 0
  {
    if |lines| % 3 != 0 then Err(UnexpectedLineCount)
    else
      var n := |lines| / 3;
      var ts := Triples(lines, n);
      var r := MapAll(ts, RecordOf);
      assert r.Err? ==> r.error == MissingToken by {
        if r.Err? {
          MapAllErr(ts, RecordOf);
          var i :| 0 <= i < |ts| && RecordOf(ts[i]) == Err(r.error);
          BigCamelOk(Strip(ts[i].1));
        }
      }
      r
  }

  /** Whether a line of the description block can be capitalised. */
  predicate Capitalizable(line: string) {
    BigCamel(Strip(line)).Ok?
  }

  /** A file of `3 * n` lines parses exactly when every description in its
      middle block can be capitalised; any other line count is refused. */
  lemma ParseFileOk(lines: seq<string>, n: nat)
    requires |lines| == 3 * n
    ensures ParseFile(lines).Ok? <==> forall d :: d in lines[n..2 * n] ==> Capitalizable(d)
  {
    assert |lines| % 3 == 0 && |lines| / 3 == n;
    var ts := Triples(lines, n);
    var middle := lines[n..2 * n];
    assert ParseFile(lines) == MapAll(ts, RecordOf);
    forall i | 0 <= i < n ensures RecordOf(ts[i]).Ok? <==> Capitalizable(middle[i]) {
      RecordOfOk(ts[i]);
    }
    MapAllOkWhen(ts, RecordOf, middle, Capitalizable);
  }

  /** Record `i` of a parsed file of `3 * n` lines takes line `i` of each
      block. */
  lemma ParseFileRecords(lines: seq<string>, n: nat, i: nat)
    requires |lines| == 3 * n && ParseFile(lines).Ok? && i < n
    ensures var rs := ParseFile(lines).value;
      |rs| == n && rs[i].date == Strip(lines[i]) && Ok(rs[i].description) == BigCamel(Strip(lines[n + i]))
      && rs[i].amount == Strip(lines[2 * n + i])
  {
    assert |lines| % 3 == 0 && |lines| / 3 == n;
    var ts := Triples(lines, n);
    MapAllOk(ts, RecordOf);
    assert ParseFile(lines).value[i] == RecordOf(ts[i]).value;
  }

  /** The three blocks of a file holding the given records. */
  function Layout(rs: seq<Record>): (lines: seq<string>)
    ensures |lines| == 3 * |rs|
    ensures forall i :: 0 <= i < |rs| ==> lines[i] == rs[i].date
    ensures forall i :: |rs| <= i < 2 * |rs| ==> lines[i] == rs[i - |rs|].description
    ensures forall i :: 2 * |rs| <= i < 3 * |rs| ==> lines[i] == rs[i - 2 * |rs|].amount
  {
    seq(|rs|, i requires 0 <= i < |rs| => rs[i].date)
    + seq(|rs|, i requires 0 <= i < |rs| => rs[i].description)
    + seq(|rs|, i requires 0 <= i < |rs| => rs[i].amount)
  }

  /** A record the file format carries unchanged: no surrounding whitespace,
      and a description already in big camel case. */
  predicate Plain(r: Record) {
    Strip(r.date) == r.date && Strip(r.description) == r.description && Strip(r.amount) == r.amount
    && BigCamel(r.description) == Ok(r.description)
  }

  /** A record with stripped fields and a description already in big camel
      case comes back unchanged from its own three fields. */
  lemma RecordOfPlain(r: Record)
    requires Plain(r)
    ensures RecordOf((r.date, r.description, r.amount)) == Ok(r)
  {
  }

  /** Laying records out in three blocks and parsing the file gives them
      back. */
  lemma ParseLayout(rs: seq<Record>)
    requires forall i :: 0 <= i < |rs| ==> Plain(rs[i])
    ensures ParseFile(Layout(rs)) == Ok(rs)
  {
    var lines := Layout(rs);
    var n := |rs|;
    assert |lines| % 3 == 0 && |lines| / 3 == n;
    var ts := Triples(lines, n);
    forall i | 0 <= i < n ensures RecordOf(ts[i]) == Ok(rs[i]) {
      assert ts[i] == (rs[i].date, rs[i].description, rs[i].amount);
      RecordOfPlain(rs[i]);
    }
    MapAllExact(ts, RecordOf, rs);
  }

  /** The files' record lists, one after another. */
  function Flatten(parts: seq<seq<Record>>): seq<Record>
    decreases |parts|
  {
    if |parts| == 0 then [] else Flatten(parts[..|parts| - 1]) + parts[|parts| - 1]
  }

  /** `_parse_statement` over all files: their records in file order; the
      first file that fails aborts. */
  function ParseFiles(files: seq<seq<string>>): Result<seq<Record>> {
    var parts :- MapAll(files, ParseFile);
    Ok(Flatten(parts))
  }

  /** The body of `_parse_statement`'s loop for one file: the line count
      check, then the records of the zipped blocks in order. */
  method ParseFileStep(lines: seq<string>) returns (r: Result<seq<Record>>)
    ensures r == ParseFile(lines)
  {
    if |lines| % 3 != 0 {
      return Err(UnexpectedLineCount);
    }
    r := MapAllLoop(Triples(lines, |lines| / 3), RecordOf);
  }

  /** `_parse_statement`. */
  method ParseStatement(files: seq<seq<string>>) returns (r: Result<seq<Record>>)
    ensures r == ParseFiles(files)
  {
    var records: seq<Record> := [];
    ghost var parts: seq<seq<Record>> := [];
    var i := 0;
    while i < |files|
      invariant 0 <= i <= |files|
      invariant MapAll(files[..i], ParseFile) == Ok(parts) && records == Flatten(parts)
    {
      MapAllStep(files, i, ParseFile);
      var part := ParseFileStep(files[i]);
      if part.Err? {
        MapAllPrefixErr(files, i + 1, ParseFile);
        return Err(part.error);
      }
      assert (parts + [part.value])[..|parts|] == parts;
      parts := parts + [part.value];
      records := records + part.value;
      i := i + 1;
    }
    assert files[..i] == files;
    return Ok(records);
  }

  /** Each file's records appear in the result as a contiguous run, in file
      order: the result is as long as all the files' records together. */
  lemma {:induction false} FlattenLength(parts: seq<seq<Record>>, files: seq<seq<string>>)
    requires |parts| == |files| && forall i :: 0 <= i < |files| ==> |parts[i]| == |files[i]| / 3
    ensures 3 * |Flatten(parts)| <= Total(files)
    ensures (forall i :: 0 <= i < |files| ==> |files[i]| % 3 == 0) ==> 3 * |Flatten(parts)| == Total(files)
    decreases |parts|
  {
    if |parts| > 0 {
      FlattenLength(parts[..|parts| - 1], files[..|files| - 1]);
    }
  }

  /** The number of lines of all files together. */
  function Total(files: seq<seq<string>>): nat
    decreases |files|
  {
    if |files| == 0 then 0 else Total(files[..|files| - 1]) + |files[|files| - 1]|
  }

  /** A successful parse makes one record per three lines across all files. */
  lemma ParseFilesCount(files: seq<seq<string>>)
    requires ParseFiles(files).Ok?
    ensures 3 * |ParseFiles(files).value| == Total(files)
  {
    MapAllOk(files, ParseFile);
    var parts := MapAll(files, ParseFile).value;
    forall i | 0 <= i < |files| ensures |parts[i]| == |files[i]| / 3 && |files[i]| % 3 == 0 {
      ParseFileLength(files[i]);
    }
    FlattenLength(parts, files);
  }

  /** A file that parses has a multiple of three lines and one record per
      three of them. */
  lemma ParseFileLength(lines: seq<string>)
    requires ParseFile(lines).Ok?
    ensures |lines| % 3 == 0 && |ParseFile(lines).value| == |lines| / 3
  {
    MapAllOk(Triples(lines, |lines| / 3), RecordOf);
  }

  /** `run`: parse all files, then write the ledger. */
  method Run(files: seq<seq<string>>) returns (r: Result<seq<seq<string>>>)
    ensures r == (var records :- ParseFiles(files); Ok(RecordRows(records)))
  {
    var records := ParseStatement(files);
    if records.Err? {
      return Err(records.error);
    }
    var rows := WriteRecords(records.value);
    return Ok(rows);
  }
}
