/** Error codes of the secure block device and the two early-return
    idioms built on them (the header sbdi_err.h).

    Every operation of the device reports its outcome as one of eleven
    error kinds, each with a fixed integer code.  A caller propagates an
    error by returning the first result that is not SUCCESS; a parameter
    check returns ILLEGAL_PARAM when its condition fails.  Here the error
    kind is a failure-compatible datatype, so Dafny's `:-` is exactly the
    "check and return early" step, and a chain of such steps is
    `RunChecks`, proved against an unconditional reference run. */
module SbdiErr {

  datatype Option<T> = None | Some(value: T)

  /** The eleven error kinds of the device. */
  datatype SbdiError =
    | Success
    | OutOfMemory
    | IllegalParam
    | IllegalState
    | Io
    | IoMissingBlock
    | IoMissingData
    | Unsupported
    | TagMismatch
    | CryptoFail
    | Unspecified
  {
    /** Every kind except SUCCESS makes a checked step return early. */
    predicate IsFailure() {
      !Success?
    }

    /** The early return hands the error on unchanged. */
    function PropagateFailure(): SbdiError
      requires IsFailure()
    {
      this
    }
  }

  const UnspecifiedCode: int := -255

  /** The integer code of each error kind. */
  function ToCode(e: SbdiError): (c: int)
    ensures c == 0 <==> e == Success
    ensures e != Success ==> c < 0
    ensures c == UnspecifiedCode <==> e == Unspecified
    ensures e != Unspecified ==> -9 <= c <= 0
  {
    match e
    case Success => 0
    case OutOfMemory => -1
    case IllegalParam => -2
    case IllegalState => -3
    case Io => -4
    case IoMissingBlock => -5
    case IoMissingData => -6
    case Unsupported => -7
    case TagMismatch => -8
    case CryptoFail => -9
    case Unspecified => -255
  }

  /** The error kind an integer code stands for, if any. */
  function FromCode(c: int): (r: Option<SbdiError>)
    ensures forall e :: r == Some(e) <==> ToCode(e) == c
    ensures r.None? <==> !(c == UnspecifiedCode || -9 <= c <= 0)
  {
    if c == 0 then Some(Success)
    else if c == -1 then Some(OutOfMemory)
    else if c == -2 then Some(IllegalParam)
    else if c == -3 then Some(IllegalState)
    else if c == -4 then Some(Io)
    else if c == -5 then Some(IoMissingBlock)
    else if c == -6 then Some(IoMissingData)
    else if c == -7 then Some(Unsupported)
    else if c == -8 then Some(TagMismatch)
    else if c == -9 then Some(CryptoFail)
    else if c == -255 then Some(Unspecified)
    else None
  }

  /** Distinct kinds have distinct codes. */
  lemma CodeInjective(a: SbdiError, b: SbdiError)
    ensures ToCode(a) == ToCode(b) ==> a == b
  {
  }

  /** Decoding the code of a kind gives that kind back. */
  lemma CodeRoundTrip(e: SbdiError)
    ensures FromCode(ToCode(e)) == Some(e)
  {
  }

  /** Encoding a decoded code gives that code back. */
  lemma CodeRoundTripInt(c: int)
    ensures FromCode(c).Some? ==> ToCode(FromCode(c).value) == c
  {
  }

  /** The parameter check: ILLEGAL_PARAM when `p` is false, SUCCESS
      otherwise, so that `:- ChkParam(p);` returns early exactly when `p`
      fails. */
  function ChkParam(p: bool): (r: SbdiError)
    ensures r.IsFailure() <==> !p
    ensures r.IsFailure() ==> r == IllegalParam
  {
    if p then Success else IllegalParam
  }

  /** The error check as a two-way combinator: the result of `f` if it is
      an error, otherwise what the rest of the caller computes. */
  function ErrChk(f: SbdiError, rest: SbdiError): (r: SbdiError)
    ensures f != Success ==> r == f
    ensures f == Success ==> r == rest
  {
    var result := f;
    :- result;
    rest
  }

  /** A parameter check followed by the rest of the caller returns the rest's
      result if and only if the check holds. */
  lemma ChkParamThen(p: bool, rest: SbdiError)
    ensures ErrChk(ChkParam(p), rest) == (if p then rest else IllegalParam)
  {
  }

  // A chain of checked steps.  Each step looks at the caller's state, may
  // change it, and yields an error kind; the chain stops after the first
  // step whose kind is not SUCCESS.

  type Step<!S> = S -> (SbdiError, S)

  /** The outcome of a chain: the status the caller returns, the state it
      leaves behind and how many steps were evaluated. */
  datatype Run<S> = Run(status: SbdiError, state: S, taken: nat)
  {
    predicate IsFailure() {
      status.IsFailure()
    }

    function PropagateFailure(): Run<S>
      requires IsFailure()
    {
      this
    }
  }

  /** Evaluates the steps in order, each one guarded as by `:-`. */
  function RunChecks<S>(steps: seq<Step<S>>, s: S): (r: Run<S>)
    ensures r.taken <= |steps|
    ensures r.status == Success ==> r.taken == |steps|
    ensures r.status != Success ==> 0 < r.taken
    decreases |steps|
  {
    if |steps| == 0 then Run(Success, s, 0)
    else
      var first := Run(steps[0](s).0, steps[0](s).1, 1);
      :- first;
      var rest := RunChecks(steps[1..], first.state);
      Run(rest.status, rest.state, rest.taken + 1)
  }

  // Reference definitions: the same steps evaluated without any check.

  /** The state after evaluating the first `k` steps unconditionally. */
  function StateAfter<S>(steps: seq<Step<S>>, s: S, k: nat): S
    requires k <= |steps|
  {
    if k == 0 then s else steps[k - 1](StateAfter(steps, s, k - 1)).1
  }

  /** The kind that step `j` yields in the unconditional evaluation. */
  function ResultAt<S>(steps: seq<Step<S>>, s: S, j: nat): SbdiError
    requires j < |steps|
  {
    steps[j](StateAfter(steps, s, j)).0
  }

  /** The first `k` steps all yield SUCCESS. */
  predicate AllSucceed<S>(steps: seq<Step<S>>, s: S, k: nat)
    requires k <= |steps|
  {
    forall j :: 0 <= j < k ==> ResultAt(steps, s, j) == Success
  }

  /** Evaluating `k + 1` steps from `s` is evaluating the first step and then
      `k` of the remaining ones. */
  lemma {:induction false} StateAfterTail<S>(steps: seq<Step<S>>, s: S, k: nat)
    requires k < |steps|
    ensures StateAfter(steps, s, k + 1) == StateAfter(steps[1..], steps[0](s).1, k)
  {
    if k > 0 {
      StateAfterTail(steps, s, k - 1);
    }
  }

  /** First error wins: a chain returns SUCCESS only after every step yields
      SUCCESS, and otherwise returns the kind of the first failing step, with
      no step after it evaluated.  The state is that of the unconditional
      evaluation cut after the steps taken. */
  lemma {:induction false} FirstErrorWins<S>(steps: seq<Step<S>>, s: S)
    ensures RunChecks(steps, s).taken <= |steps|
    ensures RunChecks(steps, s).state == StateAfter(steps, s, RunChecks(steps, s).taken)
    ensures RunChecks(steps, s).status == Success ==>
              RunChecks(steps, s).taken == |steps| && AllSucceed(steps, s, |steps|)
    ensures RunChecks(steps, s).status != Success ==>
              var n := RunChecks(steps, s).taken;
              0 < n && AllSucceed(steps, s, n - 1) && ResultAt(steps, s, n - 1) == RunChecks(steps, s).status
    decreases |steps|
  {
    if |steps| > 0 {
      var s1 := steps[0](s).1;
      if steps[0](s).0 == Success {
        var tail := steps[1..];
        FirstErrorWins(tail, s1);
        var rest := RunChecks(tail, s1);
        forall k | 0 <= k <= |tail|
          ensures StateAfter(steps, s, k + 1) == StateAfter(tail, s1, k)
        {
          StateAfterTail(steps, s, k);
        }
        forall j | 0 < j < |steps|
          ensures ResultAt(steps, s, j) == ResultAt(tail, s1, j - 1)
        {
          assert steps[j] == tail[j - 1];
        }
      }
    }
  }

  /** A chain returns SUCCESS exactly when every step yields SUCCESS in the
      unconditional evaluation. */
  lemma SuccessIffAllSucceed<S>(steps: seq<Step<S>>, s: S)
    ensures RunChecks(steps, s).status == Success <==> AllSucceed(steps, s, |steps|)
  {
    FirstErrorWins(steps, s);
    var r := RunChecks(steps, s);
    if r.status != Success {
      assert ResultAt(steps, s, r.taken - 1) != Success;
    }
  }

  /** Steps after the last one taken are never evaluated: replacing them
      changes nothing. */
  lemma {:induction false} LaterStepsIgnored<S>(steps: seq<Step<S>>, other: seq<Step<S>>, s: S)
    ensures RunChecks(steps, s).taken <= |steps|
    ensures RunChecks(steps, s).status != Success ==>
              RunChecks(steps[..RunChecks(steps, s).taken] + other, s) == RunChecks(steps, s)
    decreases |steps|
  {
    if |steps| > 0 && steps[0](s).0 == Success {
      var s1 := steps[0](s).1;
      LaterStepsIgnored(steps[1..], other, s1);
      var r := RunChecks(steps, s);
      if r.status != Success {
        var joined := steps[..r.taken] + other;
        assert joined[0] == steps[0];
        assert joined[1..] == steps[1..][..r.taken - 1] + other;
      }
    }
  }

  /** The step `:- ChkParam(p(s))`: it leaves the state alone. */
  function ParamStep<S>(p: S -> bool): Step<S>
  {
    s => (ChkParam(p(s)), s)
  }

  /** A chain that opens with a parameter check returns ILLEGAL_PARAM when
      the check fails, without evaluating anything after it, and otherwise
      runs the rest of the chain from the same state. */
  lemma ParamCheckFirst<S>(p: S -> bool, rest: seq<Step<S>>, s: S)
    ensures !p(s) ==> RunChecks([ParamStep(p)] + rest, s) == Run(IllegalParam, s, 1)
    ensures p(s) ==>
              var r := RunChecks(rest, s);
              RunChecks([ParamStep(p)] + rest, s) == Run(r.status, r.state, r.taken + 1)
  {
    assert ([ParamStep(p)] + rest)[1..] == rest;
  }
}
