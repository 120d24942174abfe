/** The string operations the tools borrow from Python: `str.split(' ')`,
    `' '.join`, `str.strip()`, slicing with negative bounds, `re.sub` of one
    character, and the fixed-pattern searches their regular expressions do. */
module Text {
  import opened Results

  predicate IsDigit(c: char) { '0' <= c <= '9' }

  /** `\d+` matched against the whole string (ASCII digits only). */
  predicate IsDigits(s: string) {
    |s| > 0 && forall i :: 0 <= i < |s| ==> IsDigit(s[i])
  }

  predicate IsWordChar(c: char) {
    'a' <= c <= 'z' || 'A' <= c <= 'Z' || IsDigit(c) || c == '_'
  }

  /** `\w+` matched against the whole string (ASCII word characters only). */
  predicate IsWord(s: string) {
    |s| > 0 && forall i :: 0 <= i < |s| ==> IsWordChar(s[i])
  }

  /** The characters Python's `str.isspace()` accepts, i.e. what `strip()` removes. */
  predicate IsSpace(c: char) {
    c == ' ' || '\t' <= c <= '\r' || '\U{1C}' <= c <= '\U{1F}' || c == '\U{85}' || c == '\U{A0}'
    || c == '\U{1680}' || '\U{2000}' <= c <= '\U{200A}' || c == '\U{2028}' || c == '\U{2029}'
    || c == '\U{202F}' || c == '\U{205F}' || c == '\U{3000}'
  }

  predicate Distinct<T(==)>(s: seq<T>) {
    forall i, j :: 0 <= i < j < |s| ==> s[i] != s[j]
  }

  // ---------------------------------------------------------------- split / join

  /** `sep.join(ts)` for a one-character separator. */
  function Join(ts: seq<string>, sep: char): string {
    if |ts| == 0 then ""
    else if |ts| == 1 then ts[0]
    else ts[0] + [sep] + Join(ts[1..], sep)
  }

  /** `s.split(sep)` for a one-character separator: the pieces between
      separators, empty pieces kept, so there is always at least one piece
      and joining the pieces gives back `s`. */
  function Split(s: string, sep: char): (r: seq<string>)
    ensures |r| >= 1
    ensures forall i :: 0 <= i < |r| ==> sep !in r[i]
    ensures Join(r, sep) == s
  {
    if |s| == 0 then [""]
    else
      var rest := Split(s[1..], sep);
      if s[0] == sep then
        assert s == [sep] + s[1..];
        [""] + rest
      else
        var r := [[s[0]] + rest[0]] + rest[1..];
        assert r[1..] == rest[1..];
        assert s == [s[0]] + s[1..];
        r
  }

  lemma {:induction false} SplitWithoutSeparator(s: string, sep: char)
    requires sep !in s
    ensures Split(s, sep) == [s]
  {
    if |s| > 0 {
      SplitWithoutSeparator(s[1..], sep);
      assert s == [s[0]] + s[1..];
    }
  }

  lemma {:induction false} SplitAfterPiece(a: string, b: string, sep: char)
    requires sep !in a
    ensures Split(a + [sep] + b, sep) == [a] + Split(b, sep)
  {
    if |a| == 0 {
      assert a + [sep] + b == [sep] + b;
      assert ([sep] + b)[1..] == b;
    } else {
      SplitAfterPiece(a[1..], b, sep);
      assert (a + [sep] + b)[1..] == a[1..] + [sep] + b;
      assert (a + [sep] + b)[0] == a[0];
      assert [a[0]] + a[1..] == a;
    }
  }

  /** Splitting undoes joining when no piece holds the separator. */
  lemma {:induction false} SplitOfJoin(ts: seq<string>, sep: char)
    requires |ts| >= 1
    requires forall i :: 0 <= i < |ts| ==> sep !in ts[i]
    ensures Split(Join(ts, sep), sep) == ts
  {
    if |ts| == 1 {
      SplitWithoutSeparator(ts[0], sep);
    } else {
      SplitOfJoin(ts[1..], sep);
      SplitAfterPiece(ts[0], Join(ts[1..], sep), sep);
      assert ts == [ts[0]] + ts[1..];
    }
  }

  /** Joining three pieces puts one separator between neighbours. */
  lemma JoinThree(a: string, b: string, c: string, sep: char)
    ensures Join([a, b, c], sep) == a + [sep] + b + [sep] + c
  {
    assert [a, b, c][1..] == [b, c];
    assert [b, c][1..] == [c];
    assert Join([b, c], sep) == b + [sep] + c;
    assert a + [sep] + (b + [sep] + c) == a + [sep] + b + [sep] + c;
  }

  /** A joined list starts with its first piece. */
  lemma JoinFirst(ts: seq<string>, sep: char)
    requires |ts| >= 1 && |ts[0]| > 0
    ensures |Join(ts, sep)| > 0 && Join(ts, sep)[0] == ts[0][0]
  {
  }

  /** A joined list ends with its last piece. */
  lemma {:induction false} JoinLast(ts: seq<string>, sep: char)
    requires |ts| >= 1
    ensures |Join(ts, sep)| >= |ts[|ts| - 1]| && Join(ts, sep)[|Join(ts, sep)| - |ts[|ts| - 1]|..] == ts[|ts| - 1]
    decreases |ts|
  {
    if |ts| > 1 {
      JoinLast(ts[1..], sep);
      assert ts[1..][|ts| - 2] == ts[|ts| - 1];
    }
  }

  /** Splitting a space-joined list of space-free tokens that starts and
      ends with a non-blank character, after stripping it, gives the tokens
      back: stripping has nothing to remove. */
  lemma SplitStripJoin(ts: seq<string>)
    requires |ts| >= 1 && forall i :: 0 <= i < |ts| ==> ' ' !in ts[i]
    requires |ts[0]| > 0 && !IsSpace(ts[0][0])
    requires |ts[|ts| - 1]| > 0 && !IsSpace(ts[|ts| - 1][|ts[|ts| - 1]| - 1])
    ensures Split(Strip(Join(ts, ' ')), ' ') == ts
  {
    var line := Join(ts, ' ');
    JoinFirst(ts, ' ');
    JoinLast(ts, ' ');
    var last := ts[|ts| - 1];
    assert line[|line| - 1] == line[|line| - |last|..][|last| - 1];
    StripUnpadded(line);
    SplitOfJoin(ts, ' ');
  }

  // ---------------------------------------------------------------- strip

  function StripLeading(s: string): (r: string)
    ensures |r| <= |s| && r == s[|s| - |r|..]
    ensures forall i :: 0 <= i < |s| - |r| ==> IsSpace(s[i])
    ensures |r| > 0 ==> !IsSpace(r[0])
  {
    if |s| > 0 && IsSpace(s[0]) then StripLeading(s[1..]) else s
  }

  function StripTrailing(s: string): (r: string)
    ensures |r| <= |s| && r == s[..|r|]
    ensures forall i :: |r| <= i < |s| ==> IsSpace(s[i])
    ensures |r| > 0 ==> !IsSpace(r[|r| - 1])
  {
    if |s| > 0 && IsSpace(s[|s| - 1]) then StripTrailing(s[..|s| - 1]) else s
  }

  /** Python's `s.strip()`: `s` without its leading and trailing whitespace. */
  function Strip(s: string): (r: string)
    ensures |r| > 0 ==> !IsSpace(r[0]) && !IsSpace(r[|r| - 1])
  {
    StripTrailing(StripLeading(s))
  }

  /** A string that neither starts nor ends with whitespace is left alone. */
  lemma StripUnpadded(s: string)
    requires |s| > 0 ==> !IsSpace(s[0]) && !IsSpace(s[|s| - 1])
    ensures Strip(s) == s
  {
  }

  // ---------------------------------------------------------------- slices

  /** A slice bound as Python normalises it: negative counts from the end,
      then clamped to `0..n`. */
  function SliceBound(n: nat, i: int): (r: nat)
    ensures r <= n
  {
    if i < 0 then (if n + i < 0 then 0 else n + i) else if i > n then n else i
  }

  /** Python's `s[start:stop]`: a negative bound counts from the end, a bound
      past either end is clamped, and crossed bounds give nothing. */
  function PySlice<T>(s: seq<T>, start: int, stop: int): (r: seq<T>)
    ensures |r| <= |s|
    ensures 0 <= start <= stop <= |s| ==> r == s[start..stop]
    ensures 0 <= start <= |s| + stop && -|s| <= stop < 0 ==> r == s[start..|s| + stop]
    ensures -|s| <= start < 0 && |s| + start <= stop <= |s| ==> r == s[|s| + start..stop]
    ensures 0 <= start <= |s| <= stop ==> r == s[start..]
    ensures 0 <= stop <= start || stop <= start < 0 ==> r == []
  {
    var a, b := SliceBound(|s|, start), SliceBound(|s|, stop);
    if a < b then s[a..b] else []
  }

  // ---------------------------------------------------------------- removing one character

  /** `re.sub(c, '', s)` for a single literal character `c`. */
  function RemoveChar(s: string, c: char): (r: string)
    ensures |r| <= |s|
  {
    if |s| == 0 then ""
    else (if s[0] == c then "" else [s[0]]) + RemoveChar(s[1..], c)
  }

  /** A string without `c` is left unchanged. */
  lemma {:induction false} RemoveCharAbsent(s: string, c: char)
    requires c !in s
    ensures RemoveChar(s, c) == s
  {
    if |s| > 0 {
      RemoveCharAbsent(s[1..], c);
      assert s == [s[0]] + s[1..];
    }
  }

  /** Removing `c` keeps every other character as often as it was there. */
  lemma {:induction false} RemoveCharCounts(s: string, c: char)
    ensures multiset(RemoveChar(s, c)) == multiset(s)[c := 0]
  {
    if |s| > 0 {
      RemoveCharCounts(s[1..], c);
      assert s == [s[0]] + s[1..];
    }
  }

  /** Removing a character distributes over concatenation. */
  lemma {:induction false} RemoveCharConcat(a: string, b: string, c: char)
    ensures RemoveChar(a + b, c) == RemoveChar(a, c) + RemoveChar(b, c)
  {
    if |a| == 0 {
      assert a + b == b;
    } else {
      var ab := a + b;
      assert ab[0] == a[0] && ab[1..] == a[1..] + b;
      RemoveCharConcat(a[1..], b, c);
    }
  }

  /** Removing the only `c` between `a` and `b` leaves `a` then `b`. */
  lemma {:induction false} RemoveCharAround(a: string, b: string, c: char)
    requires c !in a && c !in b
    ensures RemoveChar(a + [c] + b, c) == a + b
  {
    var s := a + [c] + b;
    if |a| == 0 {
      assert s[0] == c && s[1..] == b;
      RemoveCharAbsent(b, c);
    } else {
      assert s[0] == a[0] && s[1..] == a[1..] + [c] + b;
      RemoveCharAround(a[1..], b, c);
      assert a + b == [a[0]] + (a[1..] + b);
    }
  }

  // ---------------------------------------------------------------- searching

  /** The first position of `x` in `s` (Python's `s.index(x)`, or none). */
  function IndexOf<T(==)>(s: seq<T>, x: T): (r: Option<nat>)
    ensures r.Some? ==> r.value < |s| && s[r.value] == x && x !in s[..r.value]
    ensures r.None? ==> x !in s
  {
    if |s| == 0 then None
    else if s[0] == x then Some(0)
    else match IndexOf(s[1..], x)
      case None => None
      case Some(k) =>
        assert s[..k + 1] == [s[0]] + s[1..][..k];
        Some(k + 1)
  }

  /** The first `x` of `a + [x] + b` is the one after `a` when `a` has none. */
  lemma IndexOfAfter<T>(a: seq<T>, x: T, b: seq<T>)
    requires x !in a
    ensures IndexOf(a + [x] + b, x) == Some(|a|)
  {
    var s := a + [x] + b;
    assert s[|a|] == x && s[..|a|] == a;
  }

  /** `p` occurs in `s` starting at position `k`. */
  predicate OccursAt(s: string, p: string, k: nat) {
    k + |p| <= |s| && s[k..k + |p|] == p
  }

  /** `p` occurs somewhere in `s` (an unanchored `re.search` of a literal). */
  predicate Contains(s: string, p: string) {
    exists k: nat | k <= |s| :: OccursAt(s, p, k)
  }

  lemma OccursInConcat(a: string, p: string, b: string)
    ensures OccursAt(a + p + b, p, |a|)
  {
    assert (a + p + b)[|a|..|a| + |p|] == p;
  }

  /** The last occurrence of `p` in `s` that starts in `lo..hi`. */
  function LastOccurrence(s: string, p: string, lo: nat, hi: int): (r: Option<nat>)
    decreases hi - lo
    ensures r.Some? ==> lo <= r.value <= hi && OccursAt(s, p, r.value)
    ensures r.Some? ==> forall k: nat :: r.value < k <= hi ==> !OccursAt(s, p, k)
    ensures r.None? ==> forall k: nat :: lo <= k <= hi ==> !OccursAt(s, p, k)
  {
    if hi < lo then None
    else if OccursAt(s, p, hi) then Some(hi)
    else LastOccurrence(s, p, lo, hi - 1)
  }

  /** The first line at index `from` or later that satisfies `P`. */
  function FirstFrom(lines: seq<string>, from: nat, P: string -> bool): (r: Option<nat>)
    decreases |lines| - from
    ensures r.Some? ==> from <= r.value < |lines| && P(lines[r.value])
    ensures r.Some? ==> forall j :: from <= j < r.value ==> !P(lines[j])
    ensures r.None? ==> forall j :: from <= j < |lines| ==> !P(lines[j])
  {
    if from >= |lines| then None
    else if P(lines[from]) then Some(from)
    else FirstFrom(lines, from + 1, P)
  }

  /** `FirstFrom` finds the first line from `from` on that satisfies `P`. */
  lemma FirstFromAt(lines: seq<string>, from: nat, P: string -> bool, i: nat)
    requires from <= i < |lines| && P(lines[i])
    requires forall j :: from <= j < i ==> !P(lines[j])
    ensures FirstFrom(lines, from, P) == Some(i)
  {
  }

  /** `IndexOf` finds the first occurrence. */
  lemma IndexOfAt<T>(s: seq<T>, x: T, i: nat)
    requires i < |s| && s[i] == x
    requires forall j :: 0 <= j < i ==> s[j] != x
    ensures IndexOf(s, x) == Some(i)
  {
    assert forall k :: i < k <= |s| ==> s[..k][i] == x;
  }
}
