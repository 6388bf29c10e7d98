/**
 * Go `error` values as the plugin's shutdown code handles them: each call
 * returns nil or an error, and where several calls fail, one error is
 * reported according to a fixed precedence.
 */
module Errors {

  /** A non-nil error. */
  datatype Error =
    | Raised(id: nat)            // an error a resource returned (a pipe, a process call)
    | KillFailed(cause: Error)   // "error killing process after timeout: <cause>"
    | StopTimedOut               // "timed out waiting for process to stop"

  /** A Go `error` value: `nil` or a non-nil error. */
  datatype Err = Nil | NonNil(error: Error)

  /** A Go `(T, error)` pair in which exactly one side is meaningful. */
  datatype Result<T> = Ok(value: T) | Fail(error: Error)

  /** Every error of `errs` is nil. */
  predicate AllNil(errs: seq<Err>)
  {
    forall i | 0 <= i < |errs| :: errs[i] == Nil
  }

  /** The Go statement `if next != nil { err = next }`. */
  function Override(err: Err, next: Err): Err
  {
    if next != Nil then next else err
  }

  /**
   * The final value of an `err` variable that starts out as the first result
   * and is overwritten by every later non-nil result, in the order the calls
   * were made: the latest failure wins.
   */
  function Latest(errs: seq<Err>): (r: Err)
    ensures r == Nil <==> AllNil(errs)
    ensures r != Nil ==> r in errs
  {
    if errs == [] then Nil
    else
      var init := errs[..|errs| - 1];
      assert forall i | 0 <= i < |init| :: init[i] == errs[i];
      Override(Latest(init), errs[|errs| - 1])
  }

  /**
   * The error reported by a precedence list, highest precedence first: the
   * first non-nil entry, or nil when there is none.
   */
  function FirstNonNil(errs: seq<Err>): (r: Err)
    ensures r == Nil <==> AllNil(errs)
    ensures r != Nil ==> r in errs
  {
    if errs == [] then Nil
    else if errs[0] != Nil then errs[0]
    else
      assert forall i | 1 <= i < |errs| :: errs[1..][i - 1] == errs[i];
      FirstNonNil(errs[1..])
  }

  /** An entry preceded only by nils is the one a precedence list reports. */
  lemma {:induction false} FirstNonNilAt(errs: seq<Err>, k: nat)
    requires k < |errs| && errs[k] != Nil
    requires AllNil(errs[..k])
    ensures FirstNonNil(errs) == errs[k]
  {
    if k > 0 {
      assert errs[..k][0] == errs[0];
      assert errs[1..][..k - 1] == errs[1..k];
      assert forall i | 0 <= i < k - 1 :: errs[1..k][i] == errs[..k][i + 1];
      FirstNonNilAt(errs[1..], k - 1);
    }
  }

  /** `s` back to front. */
  function Reversed<T>(s: seq<T>): (r: seq<T>)
    ensures |r| == |s|
  {
    if s == [] then [] else [s[|s| - 1]] + Reversed(s[..|s| - 1])
  }

  /**
   * Overwriting `err` with each later failure reports the same error as a
   * precedence list that ranks the calls from the last made to the first.
   */
  lemma {:induction false} LatestIsFirstOfReversed(errs: seq<Err>)
    ensures Latest(errs) == FirstNonNil(Reversed(errs))
  {
    if errs != [] {
      var init := errs[..|errs| - 1];
      LatestIsFirstOfReversed(init);
      assert Reversed(errs) == [errs[|errs| - 1]] + Reversed(init);
      assert Reversed(errs)[1..] == Reversed(init);
    }
  }
}
