/** The pieces of Go's run-time behaviour the plugin relies on: machine integers,
    the error values it passes around, and the `(value, error)` return convention
    together with the run-time panic that prevents a call from returning at all. */
module GoRuntime {

  const MAX_UINT64: int := 0xFFFF_FFFF_FFFF_FFFF
  const MAX_INT64: int := 0x7FFF_FFFF_FFFF_FFFF
  const MIN_INT64: int := -0x8000_0000_0000_0000

  type uint64 = x: int | 0 <= x <= MAX_UINT64
  type int64 = x: int | MIN_INT64 <= x <= MAX_INT64

  datatype Option<T> = None | Some(value: T)

  /** Why a `strconv` conversion failed (`strconv.ErrSyntax`, `strconv.ErrRange`). */
  datatype NumCause = ErrSyntax | ErrRange

  /** The error values that reach the plugin. */
  datatype Error =
    | Errno(code: nat)                                  // a Windows system error code
    | ErrUnexpectedType                                 // registry value of the wrong type
    | NumError(func: string, num: string, cause: NumCause)  // *strconv.NumError
    | ExitError(status: int)                            // a process that did not succeed

  datatype Result<T> = Ok(value: T) | Err(error: Error) {
    /** The `error` half of a Go `(value, error)` pair: nil on success. */
    function ErrOf(): (e: Option<Error>)
      ensures e.None? <==> Ok?
    {
      if Ok? then None else Some(error)
    }

    /** The value half of a Go `(value, error)` pair: the callee's zero value on failure. */
    function ValueOr(zero: T): (v: T)
      ensures Err? ==> v == zero
    {
      if Ok? then value else zero
    }
  }

  /** What a Go call that returns `(T, error)` comes back with. */
  datatype Returned<T> = Returned(value: T, err: Option<Error>)

  /** What a Go call that returns `(T, error)` comes back with, or the run-time
      panic (index out of range) that stops it from coming back. */
  datatype Outcome<T> = Return(value: T, err: Option<Error>) | Panic(reason: string)

  /** The first non-nil error of a sequence of steps run in order: the error a
      fail-fast chain of `if err != nil { return ..., err }` checks reports. */
  function FirstError(steps: seq<Option<Error>>): (e: Option<Error>)
    ensures e.None? <==> forall i :: 0 <= i < |steps| ==> steps[i].None?
    ensures e.Some? ==>
      exists i :: 0 <= i < |steps| && steps[i] == e && forall j :: 0 <= j < i ==> steps[j].None?
  {
    if |steps| == 0 then None
    else if steps[0].Some? then steps[0]
    else
      var e := FirstError(steps[1..]);
      assert forall i :: 1 <= i < |steps| ==> steps[i] == steps[1..][i - 1];
      e
  }

  /** One step of the chain: a failing first step decides, otherwise the rest does. */
  lemma FirstErrorCons(e: Option<Error>, rest: seq<Option<Error>>)
    ensures FirstError([e] + rest) == if e.Some? then e else FirstError(rest)
  {
    assert ([e] + rest)[1..] == rest;
  }

  /** Whether a `switch` on a string takes a `case` with the list `cases`:
      the labels are compared with the value one after the other. */
  predicate Matches(s: string, cases: seq<string>) {
    |cases| > 0 && (cases[0] == s || Matches(s, cases[1..]))
  }

  /** A case list is taken exactly when the value is one of its labels. */
  lemma {:induction false} MatchesIsIn(s: string, cases: seq<string>)
    ensures Matches(s, cases) <==> s in cases
  {
    if |cases| > 0 {
      MatchesIsIn(s, cases[1..]);
      assert cases == [cases[0]] + cases[1..];
    }
  }
}
