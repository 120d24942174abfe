/** Rewriting statement descriptions: the description-conversion table read
    from its CSV file, replacing a record's description by the name of the
    first pattern that matches it, and the "big camel" capitalisation. */
module Descriptions {
  import opened Results
  import opened Text
  import opened Ledgers

  // ---------------------------------------------------------------- conversion table

  /** A Python dictionary from description patterns to substituting names:
      its keys in insertion order and its contents. */
  datatype Table = Table(patterns: seq<string>, names: map<string, string>)

  /** The key order lists each key exactly once. */
  ghost predicate Keyed(t: Table) {
    Distinct(t.patterns) && forall p :: p in t.names <==> p in t.patterns
  }

  /** The dictionary after storing the `(pattern, name)` rows in order: a
      repeated pattern takes the later name but keeps its first position. */
  function TableOf(rows: seq<(string, string)>): Table
    decreases |rows|
  {
    if |rows| == 0 then Table([], map[])
    else
      var t := TableOf(rows[..|rows| - 1]);
      var (p, n) := rows[|rows| - 1];
      if p in t.names then t.(names := t.names[p := n])
      else Table(t.patterns + [p], t.names[p := n])
  }

  /** The table is keyed by exactly the rows' patterns, each once. */
  lemma {:induction false} TableOfKeys(rows: seq<(string, string)>)
    ensures Keyed(TableOf(rows))
    ensures forall p :: p in TableOf(rows).names <==> exists i :: 0 <= i < |rows| && rows[i].0 == p
    decreases |rows|
  {
    if |rows| > 0 {
      var init := rows[..|rows| - 1];
      TableOfKeys(init);
      assert forall i :: 0 <= i < |init| ==> init[i] == rows[i];
      var t := TableOf(init);
      var p := rows[|rows| - 1].0;
      if p !in t.names {
        assert forall i :: 0 <= i < |t.patterns| ==> t.patterns[i] != p;
      }
    }
  }

  /** A pattern's name is the one on the last row carrying it. */
  lemma {:induction false} TableOfLastWins(rows: seq<(string, string)>, i: nat)
    requires i < |rows| && forall j :: i < j < |rows| ==> rows[j].0 != rows[i].0
    ensures rows[i].0 in TableOf(rows).names && TableOf(rows).names[rows[i].0] == rows[i].1
    decreases |rows|
  {
    var init := rows[..|rows| - 1];
    if i < |init| {
      assert init[i] == rows[i];
      TableOfLastWins(init, i);
    }
  }

  /** `_convert_descriptions`' reading loop over the rows of the conversion
      file, each row given as its pattern and its substituting name. */
  method BuildTable(rows: seq<(string, string)>) returns (t: Table)
    ensures t == TableOf(rows)
  {
    t := Table([], map[]);
    var i := 0;
    while i < |rows|
      invariant 0 <= i <= |rows|
      invariant t == TableOf(rows[..i])
    {
      assert rows[..i + 1][..i] == rows[..i];
      var (p, n) := rows[i];
      if p in t.names {
        t := t.(names := t.names[p := n]);
      } else {
        t := Table(t.patterns + [p], t.names[p := n]);
      }
      i := i + 1;
    }
    assert rows[..i] == rows;
  }

  // ---------------------------------------------------------------- converting a record

  /** Whether a pattern is found in a description, as `re.search` decides. */
  function Matcher(search: (string, string) -> bool, description: string): string -> bool {
    p => search(p, description)
  }

  /** `_convert_entry_description`: the record with its description replaced
      by the name of the first pattern, in key order, that is found in it;
      the record itself when none is. */
  function Converted(r: Record, t: Table, search: (string, string) -> bool): (c: Record)
    requires forall k :: 0 <= k < |t.patterns| ==> t.patterns[k] in t.names
    ensures c.date == r.date && c.amount == r.amount
    ensures (forall k :: 0 <= k < |t.patterns| ==> !search(t.patterns[k], r.description)) ==> c == r
    ensures forall k :: (0 <= k < |t.patterns| && search(t.patterns[k], r.description)
      && forall j :: 0 <= j < k ==> !search(t.patterns[j], r.description)) ==>
      c.description == t.names[t.patterns[k]]
  {
    match FirstFrom(t.patterns, 0, Matcher(search, r.description))
    case None => r
    case Some(k) => Record(r.date, t.names[t.patterns[k]], r.amount)
  }

  /** The loop of `_convert_entry_description`, returning on the first
      pattern found. */
  method ConvertEntryDescription(r: Record, t: Table, search: (string, string) -> bool) returns (c: Record)
    requires forall k :: 0 <= k < |t.patterns| ==> t.patterns[k] in t.names
    ensures c == Converted(r, t, search)
  {
    var k := 0;
    while k < |t.patterns|
      invariant 0 <= k <= |t.patterns|
      invariant forall j :: 0 <= j < k ==> !Matcher(search, r.description)(t.patterns[j])
    {
      if search(t.patterns[k], r.description) {
        FirstFromAt(t.patterns, 0, Matcher(search, r.description), k);
        return Record(r.date, t.names[t.patterns[k]], r.amount);
      }
      k := k + 1;
    }
    return r;
  }

  /** `_convert_descriptions`: every record converted, in order. */
  function ConvertDescriptions(records: seq<Record>, t: Table, search: (string, string) -> bool): (out: seq<Record>)
    requires forall k :: 0 <= k < |t.patterns| ==> t.patterns[k] in t.names
    ensures |out| == |records|
    ensures forall i :: 0 <= i < |records| ==> out[i].date == records[i].date && out[i].amount == records[i].amount
  {
    seq(|records|, i requires 0 <= i < |records| => Converted(records[i], t, search))
  }

  /** The records as `run` hands them to the writer: converted when a
      conversion file is given, unchanged otherwise. */
  function ConvertIfGiven(records: seq<Record>, conversions: Option<seq<(string, string)>>, search: (string, string) -> bool): seq<Record> {
    match conversions
    case None => records
    case Some(rows) =>
      TableOfKeys(rows);
      ConvertDescriptions(records, TableOf(rows), search)
  }

  /** The conversion step of `run`: the table built from the file's rows,
      then every record converted. */
  method ConvertStep(records: seq<Record>, conversions: Option<seq<(string, string)>>, search: (string, string) -> bool)
    returns (out: seq<Record>)
    ensures out == ConvertIfGiven(records, conversions, search)
  {
    out := records;
    if conversions.Some? {
      var t := BuildTable(conversions.value);
      TableOfKeys(conversions.value);
      out := ConvertAll(records, t, search);
    }
  }

  /** The loop of `_convert_descriptions` over the records. */
  method ConvertAll(records: seq<Record>, t: Table, search: (string, string) -> bool) returns (out: seq<Record>)
    requires forall k :: 0 <= k < |t.patterns| ==> t.patterns[k] in t.names
    ensures out == ConvertDescriptions(records, t, search)
  {
    out := [];
    var i := 0;
    while i < |records|
      invariant 0 <= i <= |records|
      invariant |out| == i && forall k :: 0 <= k < i ==> out[k] == Converted(records[k], t, search)
    {
      var c := ConvertEntryDescription(records[i], t, search);
      out := out + [c];
      i := i + 1;
    }
  }

  /** Records with the same dates, in the same order, group under the same
      dates in the same key order. */
  lemma {:induction false} SameDatesSameKeys(a: seq<Record>, b: seq<Record>)
    requires |a| == |b| && forall i :: 0 <= i < |a| ==> a[i].date == b[i].date
    ensures FirstAppearance(a) == FirstAppearance(b)
    ensures forall d :: |On(a, d)| == |On(b, d)|
    decreases |a|
  {
    if |a| > 0 {
      SameDatesSameKeys(a[..|a| - 1], b[..|b| - 1]);
    }
  }

  /** Converting descriptions never moves a record to another date, so the
      written ledger has the same dates, each with as many entries. */
  lemma ConvertKeepsDates(records: seq<Record>, t: Table, search: (string, string) -> bool)
    requires forall k :: 0 <= k < |t.patterns| ==> t.patterns[k] in t.names
    ensures FirstAppearance(ConvertDescriptions(records, t, search)) == FirstAppearance(records)
    ensures forall d :: |On(ConvertDescriptions(records, t, search), d)| == |On(records, d)|
  {
    SameDatesSameKeys(ConvertDescriptions(records, t, search), records);
  }

  // ---------------------------------------------------------------- big camel

  /** `str.upper()` on one character (ASCII letters only). */
  function Upper(c: char): char {
    if 'a' <= c <= 'z' then (c as int - 32) as char else c
  }

  /** `str.lower()` on one character (ASCII letters only). */
  function Lower(c: char): char {
    if 'A' <= c <= 'Z' then (c as int + 32) as char else c
  }

  function LowerAll(s: string): (r: string)
    ensures |r| == |s| && forall i :: 0 <= i < |s| ==> r[i] == Lower(s[i])
  {
    seq(|s|, i requires 0 <= i < |s| => Lower(s[i]))
  }

  /** `token[0].upper() + token[1:].lower()`; an empty token has no first
      character. */
  function Capitalize(token: string): Result<string> {
    if |token| == 0 then Err(MissingToken)
    else Ok([Upper(token[0])] + LowerAll(token[1..]))
  }

  /** A capitalised token: no lower-case first letter, no upper-case letter
      after it. */
  predicate IsCapitalized(token: string) {
    |token| > 0 && !('a' <= token[0] <= 'z') && forall i :: 1 <= i < |token| ==> !('A' <= token[i] <= 'Z')
  }

  /** `_big_camel`: every space-separated token capitalised. */
  function BigCamel(s: string): Result<string> {
    var caps :- MapAll(Split(s, ' '), Capitalize);
    Ok(Join(caps, ' '))
  }

  /** Case mapping never makes or removes a space; an upper-cased
      character is not lower case, a lower-cased one not upper case, and
      each leaves a character already in its case alone. */
  lemma CaseFacts(c: char)
    ensures (Upper(c) == ' ' <==> c == ' ') && (Lower(c) == ' ' <==> c == ' ')
    ensures !('a' <= Upper(c) <= 'z') && !('A' <= Lower(c) <= 'Z')
    ensures !('a' <= c <= 'z') ==> Upper(c) == c
    ensures !('A' <= c <= 'Z') ==> Lower(c) == c
  {
  }

  /** Capitalising a non-empty token gives a capitalised token of the same
      length that has a space exactly when the token has, and leaves a
      capitalised token alone. */
  lemma CapitalizeShape(token: string)
    requires |token| > 0
    ensures Capitalize(token).Ok?
    ensures var c := Capitalize(token).value;
      IsCapitalized(c) && |c| == |token| && (' ' in c <==> ' ' in token)
    ensures IsCapitalized(token) ==> Capitalize(token) == Ok(token)
  {
    var c := Capitalize(token).value;
    forall i | 0 <= i < |c|
      ensures (c[i] == ' ' <==> token[i] == ' ')
      ensures i == 0 ==> !('a' <= c[i] <= 'z')
      ensures i > 0 ==> !('A' <= c[i] <= 'Z')
      ensures IsCapitalized(token) ==> c[i] == token[i]
    {
      CaseFacts(token[i]);
    }
    assert ' ' in c <==> ' ' in token by {
      if ' ' in c {
        var i :| 0 <= i < |c| && c[i] == ' ';
        assert token[i] == ' ';
      }
      if ' ' in token {
        var i :| 0 <= i < |token| && token[i] == ' ';
        assert c[i] == ' ';
      }
    }
    if IsCapitalized(token) {
      assert c == token;
    }
  }

  /** BigCamel fails exactly when some token is empty: an empty string, a
      leading or trailing space, or two spaces in a row. */
  lemma BigCamelOk(s: string)
    ensures BigCamel(s).Ok? <==> forall i :: 0 <= i < |Split(s, ' ')| ==> |Split(s, ' ')[i]| > 0
    ensures BigCamel(s).Err? ==> BigCamel(s).error == MissingToken
  {
    MapAllOk(Split(s, ' '), Capitalize);
    if BigCamel(s).Err? {
      MapAllErr(Split(s, ' '), Capitalize);
    }
  }

  /** On success the result has the same tokens, each capitalised and
      otherwise unchanged up to case. */
  lemma BigCamelTokens(s: string)
    requires BigCamel(s).Ok?
    ensures var ts, rs := Split(s, ' '), Split(BigCamel(s).value, ' ');
      |rs| == |ts| && forall k :: 0 <= k < |ts| ==>
        |ts[k]| > 0 && rs[k] == [Upper(ts[k][0])] + LowerAll(ts[k][1..]) && IsCapitalized(rs[k])
  {
    var ts := Split(s, ' ');
    MapAllOk(ts, Capitalize);
    var caps := MapAll(ts, Capitalize).value;
    forall k | 0 <= k < |caps| ensures ' ' !in caps[k] && IsCapitalized(caps[k]) {
      CapitalizeShape(ts[k]);
    }
    SplitOfJoin(caps, ' ');
  }

  /** Applying BigCamel twice is applying it once. */
  lemma BigCamelIdempotent(s: string)
    requires BigCamel(s).Ok?
    ensures BigCamel(BigCamel(s).value) == BigCamel(s)
  {
    var r := BigCamel(s).value;
    BigCamelTokens(s);
    var rs := Split(r, ' ');
    forall k | 0 <= k < |rs| ensures Capitalize(rs[k]) == Ok(rs[k]) {
      CapitalizeShape(rs[k]);
    }
    MapAllOk(rs, Capitalize);
    assert MapAll(rs, Capitalize).value == rs;
  }
}
