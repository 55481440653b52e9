/**
 * The two Standard Schema validators: the middleware `v(target, ...schemas)`, which checks one
 * field of the context before calling `next`, and the helper `v(input, ...schemas)`, which
 * returns the value of the last schema. A schema is a function from the value it is given to
 * a result that either carries a value or carries issues; the validators only look at which.
 */
module Validation {
  import opened Wrappers
  import opened Types
  import opened Chain

  /** A Standard Schema issue: its message and the path of keys to the offending value. */
  datatype Issue = Issue(message: string, path: seq<string>)

  /**
   * What `schema["~standard"].validate(x)` settles to. A failure carries an `issues` array,
   * which is truthy even when empty, so an empty list of issues still fails.
   */
  datatype SchemaResult<+U> = Success(value: U) | Failure(issues: seq<Issue>)

  /** The context fields a middleware may validate. */
  const Targets: seq<string> := ["argv", "argv0", "scriptArgs", "args", "config", "metadata"]

  /** Why a validator throws. */
  datatype ValidationError =
    | InvalidTarget(target: string)
    | ValidationFailed(issues: seq<Issue>)
    | NoSchema

  /**
   * The message of the thrown `Error`. `render` stands for `JSON.stringify(issues, null, 2)`,
   * which is not part of this model; the list of targets is `targets.join("', '")` written out.
   */
  function Message(e: ValidationError, render: seq<Issue> -> string): string {
    match e
    case InvalidTarget(target) =>
      "Invalid validation target '" + target + "'.\nSupported targets are "
        + "'argv', 'argv0', 'scriptArgs', 'args', 'config', 'metadata'."
    case ValidationFailed(issues) => "Validation failed.\n" + render(issues)
    case NoSchema => "No schema provided."
  }

  /**
   * The index of the first schema that fails on `subject`, or the number of schemas when all
   * of them succeed. Every schema is applied to the same `subject`: no output is threaded on.
   */
  function FirstFailure<T, U>(schemas: seq<T -> SchemaResult<U>>, subject: T): (k: nat)
    ensures k <= |schemas|
    ensures forall j | 0 <= j < k :: schemas[j](subject).Success?
    ensures k < |schemas| ==> schemas[k](subject).Failure?
  {
    if schemas == [] then 0
    else if schemas[0](subject).Failure? then 0
    else 1 + FirstFailure(schemas[1..], subject)
  }

  /** All schemas succeed exactly when the first failure is past the end. */
  lemma AllPassIffNoFailure<T, U>(schemas: seq<T -> SchemaResult<U>>, subject: T)
    ensures FirstFailure(schemas, subject) == |schemas| <==> forall j | 0 <= j < |schemas| :: schemas[j](subject).Success?
  {
  }

  /**
   * Splitting the schemas of one validator over two validators in a row changes nothing: the
   * first failure of `a + b` is the first failure of `a`, or, when `a` passes, `|a|` plus the
   * first failure of `b`.
   */
  lemma {:induction false} FirstFailureAppend<T, U>(a: seq<T -> SchemaResult<U>>, b: seq<T -> SchemaResult<U>>, subject: T)
    ensures FirstFailure(a + b, subject) ==
      if FirstFailure(a, subject) < |a| then FirstFailure(a, subject) else |a| + FirstFailure(b, subject)
  {
    if a != [] {
      assert (a + b)[0] == a[0];
      assert (a + b)[1..] == a[1..] + b;
      FirstFailureAppend(a[1..], b, subject);
    } else {
      assert a + b == b;
    }
  }

  /** What the middleware does once its checks are over: call `next`, or throw. */
  datatype Verdict = CallsNext | Throws(error: ValidationError)

  /**
   * The middleware `v(target, ...schemas)` run on a context whose `target` field is `subject`.
   * `consulted` counts the schemas whose `validate` was called. An unknown target throws before
   * any schema runs; otherwise the schemas run in order up to the first failure, which throws
   * with that schema's issues; when none fails (also when there are none) `next` is called.
   */
  method Middleware<T, U>(target: string, schemas: seq<T -> SchemaResult<U>>, subject: T)
    returns (verdict: Verdict, consulted: nat)
    ensures target !in Targets ==> verdict == Throws(InvalidTarget(target)) && consulted == 0
    ensures target in Targets ==>
      var k := FirstFailure(schemas, subject);
      && (verdict == CallsNext <==> k == |schemas|)
      && (k == |schemas| ==> consulted == |schemas|)
      && (k < |schemas| ==> verdict == Throws(ValidationFailed(schemas[k](subject).issues)) && consulted == k + 1)
  {
    if target !in Targets {
      return Throws(InvalidTarget(target)), 0;
    }
    var i := 0;
    while i < |schemas|
      invariant 0 <= i <= |schemas|
      invariant forall j | 0 <= j < i :: schemas[j](subject).Success?
    {
      var result := schemas[i](subject);
      if result.Failure? {
        FirstFailureIs(schemas, subject, i);
        return Throws(ValidationFailed(result.issues)), i + 1;
      }
      i := i + 1;
    }
    FirstFailureIs(schemas, subject, |schemas|);
    return CallsNext, |schemas|;
  }

  /** The first failure is at `i` when every earlier schema succeeds and the one at `i` does not. */
  lemma {:induction false} FirstFailureIs<T, U>(schemas: seq<T -> SchemaResult<U>>, subject: T, i: nat)
    requires i <= |schemas|
    requires forall j | 0 <= j < i :: schemas[j](subject).Success?
    requires i < |schemas| ==> schemas[i](subject).Failure?
    ensures FirstFailure(schemas, subject) == i
  {
    if i > 0 {
      assert schemas[0](subject).Success?;
      assert forall j | 0 <= j < i - 1 :: schemas[1..][j] == schemas[j + 1];
      FirstFailureIs(schemas[1..], subject, i - 1);
    }
  }

  /** The middleware as a handler of the chain: a pass-through when it calls `next`, a throw otherwise. */
  function HandlerOf(verdict: Verdict, render: seq<Issue> -> string): (h: Handler)
    ensures verdict.CallsNext? ==> h == PassThrough
    ensures verdict.Throws? ==> h.steps == [Throw(Message(verdict.error, render))]
  {
    match verdict
    case CallsNext => PassThrough
    case Throws(e) => Handler([Throw(Message(e, render))])
  }

  /** A middleware that rejects, placed first, ends the run: no later handler starts. */
  lemma RejectionStopsChain(e: ValidationError, render: seq<Issue> -> string, rest: seq<Handler>)
    ensures RunChain([HandlerOf(Throws(e), render)] + rest) == ChainState(1, [0], Some(Message(e, render)))
  {
    ThrowingFirstStops(Message(e, render), rest);
  }

  /**
   * A middleware that accepts, placed before a handler that does not call `next`, lets that
   * handler run: both start, in order, and the run ends with the handler's own error, if any.
   */
  lemma AcceptanceReachesHandler(render: seq<Issue> -> string, handler: Handler)
    requires !(Next in handler.steps)
    ensures RunChain([HandlerOf(CallsNext, render), handler]) == ChainState(2, [0, 1], FirstThrow(handler.steps))
  {
    var hs := [HandlerOf(CallsNext, render), handler];
    assert hs[0] == PassThrough && hs[1] == handler;
    StopsAtFirstNonForwarder(hs, 0, 1, []);
    assert RangeFrom(0, 2) == [0, 1];
    assert RunChain(hs) == Advance(hs, ChainState(0, [], None));
  }

  /**
   * The helper `v(input, ...schemas)`: the schemas run in order on `input` up to the first
   * failure, which throws with its issues; if none fails the result is the value of the last
   * schema's result; with no schema at all it throws "No schema provided.".
   */
  method Check<T, U>(input: T, schemas: seq<T -> SchemaResult<U>>) returns (r: Result<U, ValidationError>, consulted: nat)
    ensures |schemas| == 0 ==> r == Err(NoSchema) && consulted == 0
    ensures var k := FirstFailure(schemas, input);
      && (k < |schemas| ==> r == Err(ValidationFailed(schemas[k](input).issues)) && consulted == k + 1)
      && (0 < |schemas| == k ==> r == Ok(schemas[|schemas| - 1](input).value) && consulted == |schemas|)
  {
    var lastResult: Option<U> := None;
    var i := 0;
    while i < |schemas|
      invariant 0 <= i <= |schemas|
      invariant forall j | 0 <= j < i :: schemas[j](input).Success?
      invariant i == 0 ==> lastResult.None?
      invariant i > 0 ==> lastResult == Some(schemas[i - 1](input).value)
    {
      var result := schemas[i](input);
      if result.Failure? {
        FirstFailureIs(schemas, input, i);
        return Err(ValidationFailed(result.issues)), i + 1;
      }
      lastResult := Some(result.value);
      i := i + 1;
    }
    FirstFailureIs(schemas, input, |schemas|);
    if lastResult.None? {
      return Err(NoSchema), |schemas|;
    }
    return Ok(lastResult.value), |schemas|;
  }
}
