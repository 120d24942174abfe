/** Failure values shared by every tool. Each Python tool aborts the run by
    raising; here an operation that can abort returns a `Result`. */
module Results {

  /** The reasons a run aborts. `Error('...')` raised by the tools and the
      `KeyError`/`IndexError`/`UnboundLocalError` raised by dictionary and
      list indexing are all failures; the constructor says which check fired. */
  datatype Error =
    | DateNotFound                          // no period-end date line
    | BalanceNotFound                       // no ending-balance line
    | UnexpectedDateFormat(date: string)    // not `Word digits, digits` or not `d/d/d`
    | UnknownMonth(month: string)           // month name not in the table (KeyError)
    | UnexpectedDayFormat(day: string)      // day with more than two characters
    | UnexpectedMoneyFormat(money: string)  // not `digits.dd`
    | UnexpectedLineCount                   // three-block export whose line count is not a multiple of 3
    | MissingToken                          // IndexError on a token list or an empty token
    | MissingCell                           // IndexError on a spreadsheet row that is too short
    | NoCurrentDate                         // entry row before any date row of its file
    | MissingHeader                         // summary file without even a header row

  datatype Option<+T> = None | Some(value: T)

  datatype Result<+T> = Ok(value: T) | Err(error: Error) {
    predicate IsFailure() { Err? }

    function PropagateFailure<U>(): Result<U>
      requires Err?
    {
      Err(error)
    }

    function Extract(): T
      requires Ok?
    {
      value
    }
  }

  /** Applying `f` to every element in order and stopping at the first
      failure, as a loop that raises does. */
  function MapAll<S, T>(xs: seq<S>, f: S -> Result<T>): Result<seq<T>>
    decreases |xs|
  {
    if |xs| == 0 then Ok([])
    else
      var init :- MapAll(xs[..|xs| - 1], f);
      var y :- f(xs[|xs| - 1]);
      Ok(init + [y])
  }

  /** `MapAll` succeeds exactly when every element succeeds, and then holds
      the results in order. */
  lemma {:induction false} MapAllOk<S, T>(xs: seq<S>, f: S -> Result<T>)
    ensures MapAll(xs, f).Ok? <==> forall i :: 0 <= i < |xs| ==> f(xs[i]).Ok?
    ensures MapAll(xs, f).Ok? ==> |MapAll(xs, f).value| == |xs|
    ensures MapAll(xs, f).Ok? ==> forall i :: 0 <= i < |xs| ==> MapAll(xs, f).value[i] == f(xs[i]).value
    decreases |xs|
  {
    if |xs| > 0 {
      var init := xs[..|xs| - 1];
      MapAllOk(init, f);
      assert forall i :: 0 <= i < |init| ==> init[i] == xs[i];
    }
  }

  /** When `MapAll` fails, it reports the failure of the first element that
      fails. */
  lemma {:induction false} MapAllErr<S, T>(xs: seq<S>, f: S -> Result<T>)
    requires MapAll(xs, f).Err?
    ensures exists i :: 0 <= i < |xs| && f(xs[i]) == Err(MapAll(xs, f).error) && forall j :: 0 <= j < i ==> f(xs[j]).Ok?
    decreases |xs|
  {
    var init := xs[..|xs| - 1];
    assert forall i :: 0 <= i < |init| ==> init[i] == xs[i];
    if MapAll(init, f).Err? {
      MapAllErr(init, f);
    } else {
      MapAllOk(init, f);
      assert f(xs[|xs| - 1]) == Err(MapAll(xs, f).error);
    }
  }

  /** Once a prefix fails, the whole sequence fails with the same error: a
      loop that raises never gets past the first failure. */
  lemma {:induction false} MapAllPrefixErr<S, T>(xs: seq<S>, n: nat, f: S -> Result<T>)
    requires n <= |xs| && MapAll(xs[..n], f).Err?
    ensures MapAll(xs, f) == Err(MapAll(xs[..n], f).error)
    decreases |xs| - n
  {
    if n < |xs| {
      assert xs[..n + 1][..n] == xs[..n];
      MapAllPrefixErr(xs, n + 1, f);
    } else {
      assert xs[..n] == xs;
    }
  }

  /** Extending a successful prefix by one element. */
  lemma MapAllStep<S, T>(xs: seq<S>, n: nat, f: S -> Result<T>)
    requires n < |xs|
    ensures MapAll(xs[..n + 1], f) == (var init :- MapAll(xs[..n], f); var y :- f(xs[n]); Ok(init + [y]))
  {
    assert xs[..n + 1][..n] == xs[..n];
  }

  /** `MapAll` gives exactly the element-wise results when every element
      succeeds. */
  lemma {:induction false} MapAllExact<S, T>(xs: seq<S>, f: S -> Result<T>, ys: seq<T>)
    requires |xs| == |ys| && forall i :: 0 <= i < |xs| ==> f(xs[i]) == Ok(ys[i])
    ensures MapAll(xs, f) == Ok(ys)
    decreases |xs|
  {
    if |xs| > 0 {
      MapAllExact(xs[..|xs| - 1], f, ys[..|ys| - 1]);
      assert ys[..|ys| - 1] + [ys[|ys| - 1]] == ys;
    }
  }

  /** Mapping succeeds exactly when every element of a companion sequence
      passes a test that agrees, position by position, with success. */
  lemma MapAllOkWhen<S, T, U>(xs: seq<S>, f: S -> Result<T>, ys: seq<U>, p: U -> bool)
    requires |xs| == |ys| && forall i :: 0 <= i < |xs| ==> (f(xs[i]).Ok? <==> p(ys[i]))
    ensures MapAll(xs, f).Ok? <==> forall y :: y in ys ==> p(y)
  {
    MapAllOk(xs, f);
    if !forall y :: y in ys ==> p(y) {
      var y :| y in ys && !p(y);
      var i :| 0 <= i < |ys| && ys[i] == y;
      assert !f(xs[i]).Ok?;
    }
  }

  /** The loop `MapAll` stands for: each element in turn, returning the
      first failure. */
  method MapAllLoop<S, T>(xs: seq<S>, f: S -> Result<T>) returns (r: Result<seq<T>>)
    ensures r == MapAll(xs, f)
  {
    var ys: seq<T> := [];
    var i := 0;
    while i < |xs|
      invariant 0 <= i <= |xs|
      invariant MapAll(xs[..i], f) == Ok(ys)
    {
      MapAllStep(xs, i, f);
      var y := f(xs[i]);
      if y.Err? {
        MapAllPrefixErr(xs, i + 1, f);
        return Err(y.error);
      }
      ys := ys + [y.value];
      i := i + 1;
    }
    assert xs[..i] == xs;
    return Ok(ys);
  }

  /** `f` applied to each element, in order. */
  function Map<S, T>(xs: seq<S>, f: S -> T): (ys: seq<T>)
    ensures |ys| == |xs| && forall i :: 0 <= i < |xs| ==> ys[i] == f(xs[i])
  {
    seq(|xs|, i requires 0 <= i < |xs| => f(xs[i]))
  }

  /** A loop that applies `f` to each element in turn. */
  method MapLoop<S, T>(xs: seq<S>, f: S -> T) returns (ys: seq<T>)
    ensures ys == Map(xs, f)
  {
    ys := [];
    var i := 0;
    while i < |xs|
      invariant 0 <= i <= |xs|
      invariant |ys| == i && forall k :: 0 <= k < i ==> ys[k] == f(xs[k])
    {
      ys := ys + [f(xs[i])];
      i := i + 1;
    }
  }
}
