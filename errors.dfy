/** Go's `error` values as the transaction manager uses them: a nil-able
    interface value, the wrapping done by `fmt.Errorf` with `%w`, and the
    aggregation done by `errors.Join`, together with `errors.Is`, which is how
    a caller finds a cause inside the aggregate. */
module GoErrors {
  import Fmt

  /** A nil-able value: `None` is Go's `nil`. */
  datatype Option<+T> = None | Some(value: T)

  /** An error value.
      - `Failure`: an error made outside the manager (the operation's error,
        the commit/rollback error, the error a callback returns), known only
        by its message.
      - `CallbackFailed(i, cause)`: `fmt.Errorf("callback #%d error: %w", i, cause)`.
      - `Joined(errs)`: what `errors.Join` returns; `errs` holds no nil. */
  datatype Error =
    | Failure(message: string)
    | CallbackFailed(index: nat, cause: Error)
    | Joined(errs: seq<Error>)

  /** The non-nil entries of `xs`, in order: what `errors.Join` keeps of its
      arguments, and what a run of registrations files of its callbacks. */
  function Somes<T(!new)>(xs: seq<Option<T>>): (r: seq<T>)
    ensures |r| <= |xs|
    ensures forall x :: x in r <==> Some(x) in xs
  {
    if xs == [] then []
    else if xs[0].None? then Somes(xs[1..])
    else assert xs == [xs[0]] + xs[1..]; [xs[0].value] + Somes(xs[1..])
  }

  /** `errors.Join`: nil when every argument is nil, otherwise one error that
      wraps every non-nil argument (even a single one) and discards the nils,
      so that each of them is found in it by `errors.Is`. */
  function Join(errs: seq<Option<Error>>): (r: Option<Error>)
    ensures r.None? <==> forall i :: 0 <= i < |errs| ==> errs[i].None?
    ensures r.Some? ==> r.value.Joined? && forall e :: e in r.value.errs <==> Some(e) in errs
    ensures forall i :: 0 <= i < |errs| && errs[i].Some? ==> r.Some? && Is(r.value, errs[i].value)
  {
    var kept := Somes(errs);
    if kept == [] then
      None
    else
      assert Some(kept[0]) in errs;
      assert forall i :: 0 <= i < |errs| && errs[i].Some? ==> errs[i].value in kept && Is(errs[i].value, errs[i].value);
      Some(Joined(kept))
  }

  /** `errors.Is(e, target)`: `target` is `e` itself or is reachable from it by
      unwrapping (`%w` has one cause, a joined error has several). */
  predicate Is(e: Error, target: Error)
    decreases e
  {
    e == target ||
    match e
    case Failure(_) => false
    case CallbackFailed(_, cause) => Is(cause, target)
    case Joined(errs) => exists x :: x in errs && Is(x, target)
  }

  /** `Error()`: the text of an error. A wrapped callback error reads
      `callback #<index> error: <cause>`, with the index in decimal; a joined
      error is the text of each of its errors, separated by newlines. */
  function Message(e: Error): string
    decreases e
  {
    match e
    case Failure(message) => message
    case CallbackFailed(i, cause) => WrappedText(i, Message(cause))
    case Joined(errs) => JoinLines(seq(|errs|, k requires 0 <= k < |errs| => Message(errs[k])))
  }

  /** Lines separated by a newline, as `errors.Join` prints them. */
  function JoinLines(lines: seq<string>): string
  {
    if lines == [] then ""
    else if |lines| == 1 then lines[0]
    else lines[0] + "\n" + JoinLines(lines[1..])
  }

  /** The text of `fmt.Errorf("callback #%d error: %w", i, cause)` for a
      cause whose text is `causeText`. */
  function WrappedText(i: nat, causeText: string): (r: string)
    ensures |r| >= 10 && r[..10] == "callback #"
    ensures |r| >= |causeText| && r[|r| - |causeText|..] == causeText
  {
    "callback #" + Fmt.Digits(i, 10) + " error: " + causeText
  }

  /** A common prefix cancels. */
  lemma CancelPrefix(p: string, x: string, y: string)
    requires p + x == p + y
    ensures x == y
  {
    assert x == (p + x)[|p|..];
    assert y == (p + y)[|p|..];
  }

  /** The wrapped text can be read back: it gives the index and the cause's
      text it was made from. */
  lemma WrappedTextInjective(i: nat, ti: string, j: nat, tj: string)
    requires WrappedText(i, ti) == WrappedText(j, tj)
    ensures i == j && ti == tj
  {
    var prefix, di, dj := "callback #", Fmt.Digits(i, 10), Fmt.Digits(j, 10);
    var rest, rest' := " error: " + ti, " error: " + tj;
    assert WrappedText(i, ti) == prefix + (di + rest);
    assert WrappedText(j, tj) == prefix + (dj + rest');
    CancelPrefix(prefix, di + rest, dj + rest');
    Fmt.DigitsThenSeparator(i, j, 10, rest, rest');
    CancelPrefix(" error: ", ti, tj);
  }
}
