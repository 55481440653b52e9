/**
 * The `next`-driven handler chain: a counter that only ever moves forward, and an `executeNext`
 * that starts the handler at the counter, if any, after bumping the counter. A handler runs its
 * steps in order; each `Next` re-enters `executeNext`; a `Throw` ends the whole run.
 */
module Chain {
  import opened Wrappers
  import opened Types

  /** `[0, 1, ..., n - 1]` */
  function Range(n: nat): (r: seq<nat>)
    ensures |r| == n && forall i | 0 <= i < n :: r[i] == i
  {
    seq(n, i => i)
  }

  lemma RangeSnoc(n: nat)
    ensures Range(n + 1) == Range(n) + [n]
  {
  }

  /**
   * The chain's state: the counter (`handlerIndex`), the indices of the handlers started so
   * far in the order they started, and the error a handler threw, if one did.
   */
  datatype ChainState = ChainState(index: nat, trace: seq<nat>, failure: Option<string>)

  const Start := ChainState(0, [], None)

  /**
   * One call of `executeNext` on a state in which nothing has thrown. The handlers started are
   * always exactly `0 .. index - 1`, in that order: none is skipped, none starts twice.
   */
  function Advance(hs: seq<Handler>, st: ChainState): (r: ChainState)
    requires st.index <= |hs| && st.failure.None?
    ensures st.index <= r.index <= |hs|
    ensures |st.trace| <= |r.trace| && r.trace[..|st.trace|] == st.trace
    ensures st.trace == Range(st.index) ==> r.trace == Range(r.index)
    ensures st.index == |hs| ==> r == st
    ensures st.index < |hs| ==> st.index < r.index && |st.trace| < |r.trace| && r.trace[|st.trace|] == st.index
    decreases |hs| - st.index, 1, 0
  {
    if st.index == |hs| then st
    else
      RangeSnoc(st.index);
      Perform(hs, st.index, hs[st.index].steps,
              ChainState(st.index + 1, st.trace + [st.index], None))
  }

  /** The rest of the steps of the handler at `lo`, once it has started. */
  function Perform(hs: seq<Handler>, lo: nat, steps: seq<Step>, st: ChainState): (r: ChainState)
    requires lo < st.index <= |hs|
    ensures st.index <= r.index <= |hs|
    ensures |st.trace| <= |r.trace| && r.trace[..|st.trace|] == st.trace
    ensures st.trace == Range(st.index) ==> r.trace == Range(r.index)
    ensures st.failure.Some? ==> r == st
    decreases |hs| - lo, 0, |steps|
  {
    if st.failure.Some? || steps == [] then st
    else match steps[0]
      case Throw(m) => st.(failure := Some(m))
      case Next =>
        var after := Advance(hs, st);
        Perform(hs, lo, steps[1..], after)
  }

  /** Some handler started at position `from` of the trace or later has `Throw(m)` among its steps. */
  predicate ThrownBy(hs: seq<Handler>, trace: seq<nat>, from: nat, m: string) {
    exists i | from <= i < |trace| && trace[i] < |hs| :: Throw(m) in hs[trace[i]].steps
  }

  /** The error that ends a run is one that a handler started by this call throws. */
  lemma {:induction false} AdvanceFailure(hs: seq<Handler>, st: ChainState)
    requires st.index <= |hs| && st.failure.None?
    ensures var r := Advance(hs, st);
      r.failure.Some? ==> ThrownBy(hs, r.trace, |st.trace|, r.failure.value)
    decreases |hs| - st.index, 1, 0
  {
    if st.index < |hs| {
      var s1 := ChainState(st.index + 1, st.trace + [st.index], None);
      var r := Advance(hs, st);
      assert r == Perform(hs, st.index, hs[st.index].steps, s1);
      PerformFailure(hs, st.index, hs[st.index].steps, s1);
      if r.failure.Some? && Throw(r.failure.value) in hs[st.index].steps {
        assert r.trace[|st.trace|] == st.index;
      }
    }
  }

  /** The error that ends the rest of a handler is one of those steps, or one a handler it started throws. */
  lemma {:induction false} PerformFailure(hs: seq<Handler>, lo: nat, steps: seq<Step>, st: ChainState)
    requires lo < st.index <= |hs| && st.failure.None?
    ensures var r := Perform(hs, lo, steps, st);
      r.failure.Some? ==> Throw(r.failure.value) in steps || ThrownBy(hs, r.trace, |st.trace|, r.failure.value)
    decreases |hs| - lo, 0, |steps|
  {
    if steps != [] && steps[0].Next? {
      var after := Advance(hs, st);
      AdvanceFailure(hs, st);
      if after.failure.None? {
        PerformFailure(hs, lo, steps[1..], after);
        var r := Perform(hs, lo, steps, st);
        assert r == Perform(hs, lo, steps[1..], after);
        if r.failure.Some? && Throw(r.failure.value) in steps[1..] {
          assert Throw(r.failure.value) in steps;
        }
      }
    }
  }

  /** The whole chain as the dispatcher starts it: `executeNext()` once, from index 0. */
  function RunChain(hs: seq<Handler>): (r: ChainState)
    ensures r.trace == Range(r.index) && r.index <= |hs|
    ensures |hs| > 0 ==> r.index >= 1
  {
    Advance(hs, Start)
  }

  /** A pass-through handler: calls `next` once and does nothing else. */
  const PassThrough := Handler([Next])

  /** The first error among the steps, if any (what a handler with no `Next` ends with). */
  function FirstThrow(steps: seq<Step>): Option<string> {
    if steps == [] then None
    else if steps[0].Throw? then Some(steps[0].message)
    else FirstThrow(steps[1..])
  }

  /** A handler with no `Next` steps starts nothing and fails with its first `Throw`, if any. */
  lemma PerformWithoutNext(hs: seq<Handler>, lo: nat, steps: seq<Step>, st: ChainState)
    requires lo < st.index <= |hs| && st.failure.None?
    requires !(Next in steps)
    ensures Perform(hs, lo, steps, st) == st.(failure := FirstThrow(steps))
  {
    assert steps != [] ==> steps[0] in steps;
  }

  /**
   * Pass-through handlers at `from .. k - 1` followed by a handler at `k` that never calls
   * `next`: exactly the handlers up to `k` start, and the run ends with `k`'s first error, if any.
   */
  lemma {:induction false} StopsAtFirstNonForwarder(hs: seq<Handler>, from: nat, k: nat, trace: seq<nat>)
    requires from <= k < |hs|
    requires forall j | from <= j < k :: hs[j] == PassThrough
    requires !(Next in hs[k].steps)
    ensures Advance(hs, ChainState(from, trace, None)) ==
      ChainState(k + 1, trace + RangeFrom(from, k + 1), FirstThrow(hs[k].steps))
    decreases k - from
  {
    var st := ChainState(from + 1, trace + [from], None);
    if from == k {
      PerformWithoutNext(hs, from, hs[k].steps, st);
      assert RangeFrom(from, k + 1) == [from];
    } else {
      StopsAtFirstNonForwarder(hs, from + 1, k, trace + [from]);
      var inner := Advance(hs, st);
      assert hs[from].steps == [Next];
      assert Perform(hs, from, [Next], st) == Perform(hs, from, [], inner);
      TraceCons(trace, from, k + 1);
    }
  }

  /** A first handler that throws at once ends the run: only it starts, and its error is the run's. */
  lemma ThrowingFirstStops(m: string, rest: seq<Handler>)
    ensures RunChain([Handler([Throw(m)])] + rest) == ChainState(1, [0], Some(m))
  {
    var hs := [Handler([Throw(m)])] + rest;
    StopsAtFirstNonForwarder(hs, 0, 0, []);
    assert RangeFrom(0, 1) == [0];
  }

  /** `[lo, lo + 1, ..., hi - 1]` */
  function RangeFrom(lo: nat, hi: nat): (r: seq<nat>)
    requires lo <= hi
    ensures |r| == hi - lo && forall i | 0 <= i < hi - lo :: r[i] == lo + i
  {
    seq(hi - lo, i => lo + i)
  }

  /** A chain of pass-through handlers runs every handler once, in order, and completes. */
  lemma {:induction false} AllPassThrough(hs: seq<Handler>, from: nat, trace: seq<nat>)
    requires from <= |hs|
    requires forall j | from <= j < |hs| :: hs[j] == PassThrough
    ensures Advance(hs, ChainState(from, trace, None)) == ChainState(|hs|, trace + RangeFrom(from, |hs|), None)
    decreases |hs| - from
  {
    if from == |hs| {
      assert trace + RangeFrom(from, |hs|) == trace;
    } else {
      var st := ChainState(from + 1, trace + [from], None);
      AllPassThrough(hs, from + 1, trace + [from]);
      var inner := Advance(hs, st);
      assert Perform(hs, from, [Next], st) == Perform(hs, from, [], inner);
      TraceCons(trace, from, |hs|);
    }
  }

  /** Starting `lo` and then `lo + 1 .. hi - 1` is starting `lo .. hi - 1`. */
  lemma TraceCons(trace: seq<nat>, lo: nat, hi: nat)
    requires lo < hi
    ensures (trace + [lo]) + RangeFrom(lo + 1, hi) == trace + RangeFrom(lo, hi)
  {
    assert RangeFrom(lo, hi) == [lo] + RangeFrom(lo + 1, hi);
  }

  /**
   * Calling `next` a second time after the chain stopped is not a no-op while handlers remain:
   * with handlers `[next(); next()]`, `[]`, `[]` the second call starts the third handler even
   * though the second one never called `next`. No handler still starts twice.
   */
  lemma SecondNextResumesChain()
    ensures RunChain([Handler([Next, Next]), Handler([]), Handler([])]) == ChainState(3, [0, 1, 2], None)
  {
    var hs := [Handler([Next, Next]), Handler([]), Handler([])];
    var s1 := ChainState(1, [0], None);
    var s2 := ChainState(2, [0, 1], None);
    var s3 := ChainState(3, [0, 1, 2], None);
    assert hs[0].steps == [Next, Next] && hs[1].steps == [] && hs[2].steps == [];
    assert RunChain(hs) == Perform(hs, 0, [Next, Next], s1);
    assert Advance(hs, s1) == s2;
    assert [Next, Next][1..] == [Next];
    assert Perform(hs, 0, [Next, Next], s1) == Perform(hs, 0, [Next], s2);
    assert Advance(hs, s2) == s3;
    assert Perform(hs, 0, [Next], s2) == Perform(hs, 0, [], s3);
  }

  /**
   * The closure state of one dispatch: the handler list and the `handlerIndex` counter, plus
   * the observable effects (which handlers started, and the error that ended the run).
   */
  class HandlerChain {
    const handlers: seq<Handler>
    var handlerIndex: nat
    var trace: seq<nat>
    var failure: Option<string>

    ghost predicate Valid()
      reads this
    {
      handlerIndex <= |handlers|
    }

    function State(): ChainState
      reads this
    {
      ChainState(handlerIndex, trace, failure)
    }

    constructor (handlers: seq<Handler>)
      ensures Valid() && this.handlers == handlers && State() == Start
    {
      this.handlers := handlers;
      handlerIndex := 0;
      trace := [];
      failure := None;
    }

    /** `executeNext`: start the handler at the counter, if one is left. */
    method ExecuteNext()
      requires Valid() && failure.None?
      modifies this
      ensures Valid() && State() == Advance(handlers, old(State()))
      decreases |handlers| - handlerIndex
    {
      if handlerIndex < |handlers| {
        var handler := handlers[handlerIndex];
        var lo := handlerIndex;
        handlerIndex := handlerIndex + 1;
        trace := trace + [lo];
        ghost var started := State();
        var j := 0;
        while j < |handler.steps| && failure.None?
          invariant 0 <= j <= |handler.steps|
          invariant lo < handlerIndex <= |handlers|
          invariant Perform(handlers, lo, handler.steps[j..], State()) == Perform(handlers, lo, handler.steps, started)
          decreases |handler.steps| - j
        {
          match handler.steps[j] {
            case Next =>
              ExecuteNext();
            case Throw(m) =>
              failure := Some(m);
          }
          assert handler.steps[j..][1..] == handler.steps[j + 1..];
          j := j + 1;
        }
      }
    }
  }
}
