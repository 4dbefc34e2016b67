/**
 * The call-mock engine of testslide/mock_callable.py: runners holding one
 * behaviour each, the `_CallableMock` that dispatches a call to the newest
 * runner accepting it, the count assertions, the `mock_callable()` chain
 * (`_MockCallableDSL`) and the module-level registry with its teardown.
 *
 * A runner is known by its insertion number: runners are only ever
 * inserted at the front of the list and never removed, so runner `k` of a
 * mock always sits at index `|runners| - 1 - k`.
 */
module MockCallable {
  import opened Values
  import opened Matchers
  import opened ObjectModel
  import opened Patch

  // -----------------------------------------------------------------------
  // Runners

  /**
   * The arguments given to `for_call`: positional ones and keyword ones in
   * call order.  Each may be a plain value (`Lit`) or a matcher, which is
   * what the accepted-args comparison calls `__eq__` on.
   */
  datatype Accepted = Accepted(args: seq<Pattern>, kwargs: seq<(Name, Pattern)>)

  /**
   * A behaviour, with the state its runner changes in place:
   * `_ReturnValuesRunner` keeps its values reversed and pops from the end;
   * `_YieldValuesRunner` is its own iterator, with a position.
   */
  datatype Behaviour =
    | ReturnValue(value: Value)
    | ReturnValues(reversedValues: seq<Value>)
    | YieldValues(values: seq<Value>, index: nat)
    | RaiseExc(exc: ExcKind)
    | Implementation(func: Value)
      /** `with_wrapper(func)`: `func(original, *args, **kwargs)`, dropping a prepended first argument. */
    | Wrapper(func: Value, original: Value, prependFirstArg: Value)
    | CallOriginal(original: Value)

  datatype Runner = Runner(behaviour: Behaviour, accepted: Option<Accepted>, callCount: nat)

  /**
   * What a call to the mock produces.  User code (an implementation, a
   * wrapper, the original callable) is not run here: `Invoked` says which
   * callable is called with which arguments.  A yield runner returns
   * itself, named by its insertion number.
   */
  datatype CallResult =
    | Returned(value: Value)
    | Threw(exc: ExcKind)
      /** No runner accepted the call; `registered` are the calls listed in the message. */
    | Unmatched(exc: ExcKind, registered: seq<Accepted>)
    | Iterator(runner: nat)
    | Invoked(callee: Value, call: Call)

  function Lits(vs: seq<Value>): (r: seq<Pattern>)
    ensures |r| == |vs| && forall i :: 0 <= i < |vs| ==> r[i] == Lit(vs[i])
  {
    if vs == [] then [] else [Lit(vs[0])] + Lits(vs[1..])
  }

  function LitKwargs(kw: seq<(Name, Value)>): (r: seq<(Name, Pattern)>)
    ensures |r| == |kw| && forall i :: 0 <= i < |kw| ==> r[i] == (kw[i].0, Lit(kw[i].1))
  {
    if kw == [] then [] else [(kw[0].0, Lit(kw[0].1))] + LitKwargs(kw[1..])
  }

  /**
   * `stored == args` for two tuples: the common prefix element by element
   * from the left, stopping at the first pair that is not `==` (or raises),
   * and only then the lengths; tuples have no early length test.
   */
  function ArgsEq(stored: seq<Pattern>, args: seq<Value>): Verdict
  {
    if stored == [] || args == [] then Answer(|stored| == |args|)
    else AndThen(Matches(stored[0], args[0]), ArgsEq(stored[1..], args[1..]))
  }

  /** Every stored keyword, in order, is given in `kwargs` with an equal value. */
  function KwargsAll(stored: seq<(Name, Pattern)>, kwargs: seq<(Name, Value)>): Verdict
  {
    if stored == [] then Answer(true)
    else match KwLookup(kwargs, stored[0].0)
      case None => Answer(false)
      case Some(v) => AndThen(Matches(stored[0].1, v), KwargsAll(stored[1..], kwargs))
  }

  /** `stored == kwargs` for two dicts: equal sizes, then the stored entries in order. */
  function KwargsEq(stored: seq<(Name, Pattern)>, kwargs: seq<(Name, Value)>): Verdict
  {
    if |stored| != |kwargs| then Answer(false) else KwargsAll(stored, kwargs)
  }

  /** `_Runner.can_accept_args`: no `for_call` accepts everything; otherwise `(args, kwargs)` must equal the stored pair. */
  function CanAccept(r: Runner, call: Call): Verdict
  {
    match r.accepted
    case None => Answer(true)
    case Some(a) => AndThen(ArgsEq(a.args, call.args), KwargsEq(a.kwargs, call.kwargs))
  }

  /** `runner.run(*args, **kwargs)` of the runner with insertion number `rid`: the count goes up first. */
  function Run(r: Runner, rid: nat, call: Call): (Runner, CallResult)
  {
    var counted := r.(callCount := r.callCount + 1);
    match r.behaviour
    case ReturnValue(v) => (counted, Returned(v))
    case ReturnValues(rev) =>
      if |rev| > 0 then (counted.(behaviour := ReturnValues(rev[..|rev| - 1])), Returned(rev[|rev| - 1]))
      else (counted, Threw(UndefinedBehaviorForCall))
    case YieldValues(_, _) => (counted, Iterator(rid))
    case RaiseExc(e) => (counted, Threw(e))
    case Implementation(f) => (counted, Invoked(f, call))
    case Wrapper(f, original, prepend) => (counted, WrapperCall(f, original, prepend, call))
    case CallOriginal(original) => (counted, Invoked(original, call))
  }

  /**
   * `_ImplementationRunner` for `with_wrapper`: a prepended first argument
   * must be the one the call starts with, and is dropped; the wrapper gets
   * the original callable first.
   */
  function WrapperCall(f: Value, original: Value, prepend: Value, call: Call): CallResult
  {
    if Truthy(prepend) && |call.args| > 0 && !PyEq(call.args[0], prepend) then Threw(AssertionError)
    else
      var rest := if Truthy(prepend) && |call.args| > 0 then call.args[1..] else call.args;
      Invoked(f, Call([original] + rest, call.kwargs))
  }

  /**
   * The runner `_real_call` picks: the index of the first runner accepting
   * the call, `None` if none does, or the exception a comparison raised.
   */
  function FirstAccepting(runners: seq<Runner>, call: Call): (r: Result<Option<nat>, ExcKind>)
    ensures r.Ok? && r.value.Some? ==>
      r.value.value < |runners| && CanAccept(runners[r.value.value], call) == Answer(true) &&
      forall j :: 0 <= j < r.value.value ==> CanAccept(runners[j], call) == Answer(false)
    ensures r == Ok(None) <==> forall j :: 0 <= j < |runners| ==> CanAccept(runners[j], call) == Answer(false)
    ensures r.Err? ==> exists i :: (0 <= i < |runners| && CanAccept(runners[i], call) == Raises(r.error) &&
                                    forall j :: 0 <= j < i ==> CanAccept(runners[j], call) == Answer(false))
  {
    if runners == [] then Ok(None)
    else match CanAccept(runners[0], call)
      case Raises(e) => Err(e)
      case Answer(true) => Ok(Some(0))
      case Answer(false) =>
        var rest := FirstAccepting(runners[1..], call);
        assert forall j :: 1 <= j < |runners| ==> runners[j] == runners[1..][j - 1];
        if rest.Ok? && rest.value.Some? then Ok(Some(rest.value.value + 1)) else rest
  }

  /** `_registered_calls`: the accepted args of the runners that have some, in list order. */
  function RegisteredCalls(runners: seq<Runner>): (r: seq<Accepted>)
    ensures |r| == 0 <==> forall i :: 0 <= i < |runners| ==> runners[i].accepted.None?
    ensures forall a :: a in r <==> exists i :: 0 <= i < |runners| && runners[i].accepted == Some(a)
  {
    if runners == [] then []
    else
      var rest := RegisteredCalls(runners[1..]);
      assert forall j :: 1 <= j < |runners| ==> runners[j] == runners[1..][j - 1];
      if runners[0].accepted.Some? then [runners[0].accepted.value] + rest else rest
  }

  /** `_real_call(*args, **kwargs)`: the new runner list and what the call produced. */
  function RealCallSpec(runners: seq<Runner>, call: Call): (seq<Runner>, CallResult)
  {
    match FirstAccepting(runners, call)
    case Err(e) => (runners, Threw(e))
    case Ok(None) =>
      var reg := RegisteredCalls(runners);
      (runners, Unmatched(if |reg| > 0 then UnexpectedCallArguments else UndefinedBehaviorForCall, reg))
    case Ok(Some(i)) =>
      var ran := Run(runners[i], |runners| - 1 - i, call);
      (runners[i := ran.0], ran.1)
  }

  /** `next()` on a yield runner's iterator: the value at its position, or StopIteration. */
  function NextSpec(b: Behaviour): (Behaviour, Result<Value, ExcKind>)
    requires b.YieldValues?
  {
    if b.index < |b.values| then (b.(index := b.index + 1), Ok(b.values[b.index]))
    else (b, Err(StopIteration))
  }

  // -----------------------------------------------------------------------
  // Count assertions

  datatype CountCheck = Exactly | AtLeast | AtMost

  /** A registered assertion: the runner (mock and insertion number) it reads, what it checks, and `times`. */
  datatype Assertion = Assertion(check: CountCheck, times: int)

  /** The closures of `add_exact_calls_assertion`, `add_at_least_calls_assertion` and `add_at_most_calls_assertion`. */
  predicate AssertionFails(a: Assertion, callCount: nat)
  {
    match a.check
    case Exactly => a.times != callCount
    case AtLeast => callCount < a.times
    case AtMost => callCount == 0 || callCount > a.times
  }

  // -----------------------------------------------------------------------
  // `_CallableMock`

  class CallableMock {
    const target: ObjId
    const attr: Name
    /** The number this mock is installed under, as `MockV(mid)`. */
    const mid: nat
    var runners: seq<Runner>
    /**
     * `original_callable`: `__init__` does not set it; the first chain sets
     * it once `_patch` has returned, so it stays unset (`None`) if `_patch`
     * raised.
     */
    var original: Option<Value>

    constructor (target: ObjId, attr: Name, mid: nat)
      ensures this.target == target && this.attr == attr && this.mid == mid
      ensures runners == [] && original.None?
    {
      this.target := target;
      this.attr := attr;
      this.mid := mid;
      runners := [];
      original := None;
    }

    /** `_real_call`: the first runner accepting the call runs; otherwise one of the two errors. */
    method RealCall(call: Call) returns (res: CallResult)
      modifies this
      ensures (runners, res) == RealCallSpec(old(runners), call)
      ensures original == old(original)
    {
      var i := 0;
      while i < |runners|
        invariant 0 <= i <= |runners|
        invariant forall j :: 0 <= j < i ==> CanAccept(runners[j], call) == Answer(false)
      {
        var v := CanAccept(runners[i], call);
        if v.Raises? {
          return Threw(v.kind);
        }
        if v.holds {
          var ran := Run(runners[i], |runners| - 1 - i, call);
          runners := runners[i := ran.0];
          return ran.1;
        }
        i := i + 1;
      }
      var reg := RegisteredCalls(runners);
      if |reg| > 0 {
        res := Unmatched(UnexpectedCallArguments, reg);
      } else {
        res := Unmatched(UndefinedBehaviorForCall, reg);
      }
    }

    /** `next()` on the iterator a yield runner returned. */
    method Next(rid: nat) returns (r: Result<Value, ExcKind>)
      requires rid < |runners| && runners[|runners| - 1 - rid].behaviour.YieldValues?
      modifies this
      ensures var i := |old(runners)| - 1 - rid;
        var n := NextSpec(old(runners)[i].behaviour);
        runners == old(runners)[i := old(runners)[i].(behaviour := n.0)] && r == n.1
      ensures original == old(original)
    {
      var i := |runners| - 1 - rid;
      var b := runners[i].behaviour;
      if b.index < |b.values| {
        r := Ok(b.values[b.index]);
        runners := runners[i := runners[i].(behaviour := b.(index := b.index + 1))];
      } else {
        r := Err(StopIteration);
      }
    }
  }

  // -----------------------------------------------------------------------
  // Properties of dispatch

  /** The runner a DSL chain just inserted at the front answers every call it accepts. */
  lemma NewestWins(r: Runner, older: seq<Runner>, call: Call)
    requires CanAccept(r, call) == Answer(true)
    ensures FirstAccepting([r] + older, call) == Ok(Some(0))
    ensures RealCallSpec([r] + older, call).1 == Run(r, |older|, call).1
  {
    var rs := [r] + older;
    assert rs[0] == r && |rs| - 1 - 0 == |older|;
    FrontRunnerPicked(rs, call);
    AcceptingRunnerRuns(rs, call, 0);
  }

  lemma FrontRunnerPicked(runners: seq<Runner>, call: Call)
    requires |runners| > 0 && CanAccept(runners[0], call) == Answer(true)
    ensures FirstAccepting(runners, call) == Ok(Some(0))
  {
  }

  /** The runner `FirstAccepting` picks is the one that runs. */
  lemma AcceptingRunnerRuns(runners: seq<Runner>, call: Call, i: nat)
    requires FirstAccepting(runners, call) == Ok(Some(i))
    ensures i < |runners|
    ensures var ran := Run(runners[i], |runners| - 1 - i, call);
      RealCallSpec(runners, call) == (runners[i := ran.0], ran.1)
  {
  }

  /** A runner behind another one that accepts the same call is never reached for it. */
  lemma ShadowedRunnerIdle(runners: seq<Runner>, i: nat, j: nat, call: Call)
    requires i < j < |runners| && CanAccept(runners[i], call) == Answer(true)
    ensures RealCallSpec(runners, call).0[j] == runners[j]
  {
  }

  /** Without `for_call` a runner accepts every call. */
  lemma AnyCallAccepted(b: Behaviour, n: nat, call: Call)
    ensures CanAccept(Runner(b, None, n), call) == Answer(true)
  {
  }

  /** The positional arguments have the same length and are `==` pairwise. */
  predicate SameArgs(vs: seq<Value>, args: seq<Value>)
  {
    |vs| == |args| && forall i :: 0 <= i < |vs| ==> PyEq(vs[i], args[i])
  }

  /** Each keyword of `kw` is given, with a `==` value. */
  predicate KwargsGiven(kw: seq<(Name, Value)>, given: seq<(Name, Value)>)
  {
    forall i :: 0 <= i < |kw| ==> KwLookup(given, kw[i].0).Some? && PyEq(kw[i].1, KwLookup(given, kw[i].0).value)
  }

  /** Positional literals compare equal iff the lengths agree and each pair is `==`. */
  lemma {:induction false} LiteralArgsEq(vs: seq<Value>, args: seq<Value>)
    ensures ArgsEq(Lits(vs), args) == Answer(SameArgs(vs, args))
  {
    if vs != [] && args != [] {
      LiteralArgsEq(vs[1..], args[1..]);
      assert Lits(vs)[1..] == Lits(vs[1..]);
      assert forall i :: 1 <= i < |vs| ==> vs[i] == vs[1..][i - 1];
      assert forall i :: 1 <= i < |args| ==> args[i] == args[1..][i - 1];
    }
  }

  /**
   * Tuple `==` answers true iff the lengths agree and every pair compares
   * true, and raises iff a pair within the common prefix raises after every
   * earlier pair compared true, whatever the lengths.
   */
  lemma {:induction false} ArgsEqMeaning(stored: seq<Pattern>, args: seq<Value>)
    ensures ArgsEq(stored, args) == Answer(true) <==>
      |stored| == |args| && forall i :: 0 <= i < |stored| ==> Matches(stored[i], args[i]) == Answer(true)
    ensures ArgsEq(stored, args).Raises? <==>
      exists i :: 0 <= i < |stored| && i < |args| && Matches(stored[i], args[i]).Raises? &&
        forall j :: 0 <= j < i ==> Matches(stored[j], args[j]) == Answer(true)
  {
    if stored != [] && args != [] {
      var s', a' := stored[1..], args[1..];
      ArgsEqMeaning(s', a');
      assert forall i :: 1 <= i < |stored| ==> stored[i] == s'[i - 1];
      assert forall i :: 1 <= i < |args| ==> args[i] == a'[i - 1];
      if Matches(stored[0], args[0]) == Answer(true) {
        if ArgsEq(s', a').Raises? {
          var i :| 0 <= i < |s'| && i < |a'| && Matches(s'[i], a'[i]).Raises? &&
            forall j :: 0 <= j < i ==> Matches(s'[j], a'[j]) == Answer(true);
          assert Matches(stored[i + 1], args[i + 1]).Raises?;
          assert forall j :: 0 <= j < i + 1 ==> Matches(stored[j], args[j]) == Answer(true);
        }
      }
    }
  }

  /**
   * `for_call(AnyContaining(1), 2)` against the call `f(5)`: `1 in 5` is
   * evaluated, and raises, before the lengths are compared.
   */
  lemma PrefixComparedBeforeLength()
    ensures ArgsEq([AnyContaining(IntV(1)), Lit(IntV(2))], [IntV(5)]) == Raises(TypeError)
  {
  }

  /** Literal keywords: each stored name is given with an equal value. */
  lemma {:induction false} LiteralKwargsAll(kw: seq<(Name, Value)>, given: seq<(Name, Value)>)
    ensures KwargsAll(LitKwargs(kw), given) == Answer(KwargsGiven(kw, given))
  {
    if kw != [] {
      LiteralKwargsAll(kw[1..], given);
      assert LitKwargs(kw)[1..] == LitKwargs(kw[1..]);
      assert forall i :: 1 <= i < |kw| ==> kw[i] == kw[1..][i - 1];
    }
  }

  /**
   * `for_call(*args, **kwargs)` with plain values accepts exactly the calls
   * with `==` positional arguments and the same keywords with `==` values;
   * in particular `for_call()` accepts only the call without arguments.
   */
  lemma ExactCallAccepted(b: Behaviour, n: nat, args: seq<Value>, kw: seq<(Name, Value)>, call: Call)
    ensures CanAccept(Runner(b, Some(Accepted(Lits(args), LitKwargs(kw))), n), call) ==
      Answer(SameArgs(args, call.args) && |kw| == |call.kwargs| && KwargsGiven(kw, call.kwargs))
  {
    LiteralArgsEq(args, call.args);
    LiteralKwargsAll(kw, call.kwargs);
  }

  lemma EmptyForCallAcceptsOnlyEmptyCall(b: Behaviour, n: nat, call: Call)
    ensures CanAccept(Runner(b, Some(Accepted([], [])), n), call) == Answer(call.args == [] && call.kwargs == [])
  {
    ExactCallAccepted(b, n, [], [], call);
  }

  /**
   * When no runner accepts a call, the error is UnexpectedCallArguments iff
   * some runner was given `for_call`, and the message lists every such call.
   */
  lemma UnmatchedCallError(runners: seq<Runner>, call: Call)
    requires forall j :: 0 <= j < |runners| ==> CanAccept(runners[j], call) == Answer(false)
    ensures var res := RealCallSpec(runners, call).1;
      res.Unmatched? && RealCallSpec(runners, call).0 == runners &&
      (res.exc == UnexpectedCallArguments <==> exists i :: 0 <= i < |runners| && runners[i].accepted.Some?) &&
      (res.exc == UndefinedBehaviorForCall <==> forall i :: 0 <= i < |runners| ==> runners[i].accepted.None?) &&
      forall a :: a in res.registered <==> exists i :: 0 <= i < |runners| && runners[i].accepted == Some(a)
  {
  }

  /**
   * A call changes only the runner that ran, and only by one more call
   * (and its return-values or none of its other state), even when the
   * behaviour raises.
   */
  lemma CallCountsOnce(runners: seq<Runner>, call: Call)
    ensures var s := RealCallSpec(runners, call).0;
      |s| == |runners| &&
      (forall j :: 0 <= j < |runners| ==> s[j].accepted == runners[j].accepted) &&
      match FirstAccepting(runners, call)
      case Ok(Some(i)) =>
        s[i].callCount == runners[i].callCount + 1 &&
        forall j :: 0 <= j < |runners| && j != i ==> s[j] == runners[j]
      case _ => s == runners
  {
    match FirstAccepting(runners, call)
    case Ok(Some(i)) => AcceptingRunnerRuns(runners, call, i);
    case _ =>
  }

  /** `to_return_values(xs)` answers `xs[0]` first and keeps the rest for later calls. */
  lemma ReturnValuesStep(xs: seq<Value>, accepted: Option<Accepted>, n: nat, rid: nat, call: Call)
    requires xs != []
    ensures Run(Runner(ReturnValues(Reverse(xs)), accepted, n), rid, call) ==
      (Runner(ReturnValues(Reverse(xs[1..])), accepted, n + 1), Returned(xs[0]))
  {
    var rev := Reverse(xs);
    assert rev == Reverse(xs[1..]) + [xs[0]];
    assert rev[..|rev| - 1] == Reverse(xs[1..]) && rev[|rev| - 1] == xs[0];
    ReturnValuesPop(rev, accepted, n, rid, call);
  }

  /** A return-values runner pops its stored values from the end. */
  lemma ReturnValuesPop(rev: seq<Value>, accepted: Option<Accepted>, n: nat, rid: nat, call: Call)
    requires rev != []
    ensures Run(Runner(ReturnValues(rev), accepted, n), rid, call) ==
      (Runner(ReturnValues(rev[..|rev| - 1]), accepted, n + 1), Returned(rev[|rev| - 1]))
  {
  }

  /** The results of `k` calls in a row on one runner that accepts them all. */
  function RunTimes(r: Runner, rid: nat, call: Call, k: nat): (Runner, seq<CallResult>)
    decreases k
  {
    if k == 0 then (r, [])
    else
      var first := Run(r, rid, call);
      var rest := RunTimes(first.0, rid, call, k - 1);
      (rest.0, [first.1] + rest.1)
  }

  /**
   * `to_return_values(xs)`: successive calls return the elements of `xs` in
   * order, then every further call raises UndefinedBehaviorForCall; each
   * call counts once.
   */
  lemma {:induction false} ReturnValuesInOrder(xs: seq<Value>, accepted: Option<Accepted>, n: nat, rid: nat, call: Call, extra: nat)
    ensures var t := RunTimes(Runner(ReturnValues(Reverse(xs)), accepted, n), rid, call, |xs| + extra);
      |t.1| == |xs| + extra && t.0.callCount == n + |xs| + extra &&
      (forall i :: 0 <= i < |xs| ==> t.1[i] == Returned(xs[i])) &&
      (forall i :: |xs| <= i < |xs| + extra ==> t.1[i] == Threw(UndefinedBehaviorForCall))
  {
    if xs == [] {
      ExhaustedRaises(accepted, n, rid, call, extra);
    } else {
      ReturnValuesStep(xs, accepted, n, rid, call);
      ReturnValuesInOrder(xs[1..], accepted, n + 1, rid, call, extra);
      var t := RunTimes(Runner(ReturnValues(Reverse(xs)), accepted, n), rid, call, |xs| + extra);
      var t' := RunTimes(Runner(ReturnValues(Reverse(xs[1..])), accepted, n + 1), rid, call, |xs| - 1 + extra);
      assert t == (t'.0, [Returned(xs[0])] + t'.1);
      ConsResults(xs, t'.1, extra);
    }
  }

  /** The results of the remaining calls, with the first value's in front. */
  lemma ConsResults(xs: seq<Value>, rest: seq<CallResult>, extra: nat)
    requires xs != [] && |rest| == |xs| - 1 + extra
    requires forall i :: 0 <= i < |xs| - 1 ==> rest[i] == Returned(xs[1..][i])
    requires forall i :: |xs| - 1 <= i < |xs| - 1 + extra ==> rest[i] == Threw(UndefinedBehaviorForCall)
    ensures var all := [Returned(xs[0])] + rest;
      (forall i :: 0 <= i < |xs| ==> all[i] == Returned(xs[i])) &&
      (forall i :: |xs| <= i < |xs| + extra ==> all[i] == Threw(UndefinedBehaviorForCall))
  {
    var all := [Returned(xs[0])] + rest;
    forall i | 1 <= i < |xs| + extra
      ensures all[i] == rest[i - 1]
    {
    }
  }

  lemma {:induction false} ExhaustedRaises(accepted: Option<Accepted>, n: nat, rid: nat, call: Call, k: nat)
    decreases k
    ensures var t := RunTimes(Runner(ReturnValues([]), accepted, n), rid, call, k);
      t.0 == Runner(ReturnValues([]), accepted, n + k) &&
      |t.1| == k && forall i :: 0 <= i < k ==> t.1[i] == Threw(UndefinedBehaviorForCall)
  {
    if k > 0 {
      ExhaustedRaises(accepted, n + 1, rid, call, k - 1);
    }
  }

  /**
   * `to_yield_values(xs)`: every call returns the same iterator (the runner
   * itself) and leaves its position alone, so iteration resumes where any
   * earlier `next()` left it.
   */
  lemma YieldSharesPosition(xs: seq<Value>, index: nat, accepted: Option<Accepted>, n: nat, rid: nat, call: Call)
    ensures var ran := Run(Runner(YieldValues(xs, index), accepted, n), rid, call);
      ran.1 == Iterator(rid) && ran.0.behaviour == YieldValues(xs, index)
  {
  }

  /** Successive `next()` calls give the list in order from the position, then StopIteration. */
  lemma {:induction false} YieldInOrder(xs: seq<Value>, index: nat)
    ensures index < |xs| ==> NextSpec(YieldValues(xs, index)) == (YieldValues(xs, index + 1), Ok(xs[index]))
    ensures index >= |xs| ==> NextSpec(YieldValues(xs, index)).1 == Err(StopIteration)
  {
  }

  /** `and_assert_not_called()` fails iff the runner ran at least once. */
  lemma NotCalledAssertion(c: nat)
    ensures AssertionFails(Assertion(Exactly, 0), c) <==> c >= 1
  {
  }

  /** `and_assert_called_at_most(t)` holds exactly for one to `t` calls: zero calls fail it too. */
  lemma AtMostWindow(t: int, c: nat)
    ensures !AssertionFails(Assertion(AtMost, t), c) <==> 1 <= c <= t
  {
  }

  /** `at_least(t)` and `at_most(t)` both hold iff the count is exactly `t` (for `t >= 1`). */
  lemma AtLeastAndAtMostIsExactly(t: int, c: nat)
    requires t >= 1
    ensures (!AssertionFails(Assertion(AtLeast, t), c) && !AssertionFails(Assertion(AtMost, t), c)) <==>
      !AssertionFails(Assertion(Exactly, t), c)
  {
  }

  // -----------------------------------------------------------------------
  // Installing the mock: the module's own `_patch`

  /** Some class of `mro` stores a plain function under `name` (a proxy is not looked through here). */
  function StoresFunctionDirect(h: Heap, mro: seq<ObjId>, name: Name): (r: bool)
    ensures r <==> exists i :: 0 <= i < |mro| && HasOwn(h, mro[i], name) && OwnGet(h, mro[i], name).FuncV?
  {
    if mro == [] then false
    else if HasOwn(h, mro[0], name) && OwnGet(h, mro[0], name).FuncV? then true
    else
      var r := StoresFunctionDirect(h, mro[1..], name);
      assert forall i :: 0 < i < |mro| ==> mro[i] == mro[1..][i - 1];
      r
  }

  /** The `_is_instance_method` of testslide/mock_callable.py. */
  function IsInstanceMethodDirect(h: Heap, target: ObjId, name: Name): bool
  {
    StoresFunctionDirect(h, TargetMro(h, target), name)
  }

  /**
   * What `_add_signature_validation` hands to `inspect.signature`: the
   * attribute read on the target, or on a StrictMock its template's
   * attribute (nothing without a template, or when the template lacks it,
   * in which case the value is returned unwrapped).
   */
  function SignatureSubject(h: Heap, target: ObjId, attr: Name): Option<Value>
  {
    if target in h.kinds && h.kinds[target].Double? then
      var t := h.kinds[target].template;
      if t.Some? && attr in t.value then Some(t.value[attr]) else None
    else
      match GetAttr(h, target, attr)
      case Ok(v) => Some(v)
      case Err(_) => None
  }

  /** `inspect.signature` (or `functools.partial`) on something not callable raises TypeError, which is not caught. */
  predicate SignatureRefused(h: Heap, target: ObjId, attr: Name)
  {
    SignatureSubject(h, target, attr).Some? && !Callable(SignatureSubject(h, target, attr).value)
  }

  /** What `_patch` returns: the original callable and the unpatch closure. */
  datatype Patched = Patched(original: Value, unpatcher: Unpatcher)

  /**
   * `_patch(target, method, callable_mock)`: read the original (not for a
   * StrictMock), refuse an attribute whose signature cannot be read (TypeError
   * from `_add_signature_validation`), refuse an instance method of a class, wrap the mock in a
   * `staticmethod` on a class, then install it per instance or with
   * `setattr`.  The value the unpatcher restores is read from the target's
   * own `__dict__`; a StrictMock keeps its attributes in the class made for
   * it, not there, so its unpatcher always deletes.
   */
  function MockPatchSpec(h: Heap, target: ObjId, attr: Name, mockValue: Value): (r: Outcome<Patched>)
    ensures !(target in h.kinds && h.kinds[target].Double?) && GetAttr(h, target, attr).Err? ==>
      r == Outcome(h, Err(GetAttr(h, target, attr).error))
    ensures r.result.Ok? && target in h.kinds && h.kinds[target].Double? ==> r.result.value.original == NoneV
    ensures r.result.Ok? && !(target in h.kinds && h.kinds[target].Double?) ==>
      GetAttr(h, target, attr).Ok? && r.result.value.original == GetAttr(h, target, attr).value && Callable(r.result.value.original)
    ensures r.result.Ok? && target in h.kinds && h.kinds[target].Double? ==>
      r.result.value.unpatcher == RestoreAttribute(target, attr, false, NoneV)
  {
    var isDouble := target in h.kinds && h.kinds[target].Double?;
    var original := if isDouble then Ok(NoneV) else GetAttr(h, target, attr);
    if original.Err? then Outcome(h, Err(original.error))
    else if SignatureRefused(h, target, attr) then Outcome(h, Err(TypeError))
    else
      var isClass := target in h.kinds && h.kinds[target].Class?;
      if isClass && IsInstanceMethodDirect(h, target, attr) then Outcome(h, Err(ValueError))
      else
        var newValue := if isClass then StaticMethodV(mockValue) else mockValue;
        if IsInstanceMethodDirect(h, target, attr) then
          var o := MockInstanceAttributeSpec(h, target, attr, newValue);
          Outcome(o.heap, if o.result.Err? then Err(o.result.error) else Ok(Patched(original.value, o.result.value)))
        else
          match SetAttr(h, target, attr, newValue)
          case Err(e) => Outcome(h, Err(e))
          case Ok(h') =>
            var restore := !isDouble && HasOwn(h, target, attr);
            Outcome(h', Ok(Patched(original.value, RestoreAttribute(target, attr, restore, if restore then OwnGet(h, target, attr) else NoneV))))
  }

  /**
   * A target attribute that is not callable (a module constant, say), or a
   * StrictMock template attribute that is not, is refused with TypeError and
   * nothing changes.
   */
  lemma NonCallableAttributeRefused(h: Heap, target: ObjId, attr: Name, mockValue: Value)
    requires GetAttr(h, target, attr).Ok? || (target in h.kinds && h.kinds[target].Double?)
    ensures SignatureRefused(h, target, attr) ==> MockPatchSpec(h, target, attr, mockValue) == Outcome(h, Err(TypeError))
  {
  }

  /** An instance method (whose attribute passes the signature step) cannot be mocked at its class, and nothing changes. */
  lemma ClassInstanceMethodRefused(h: Heap, klass: ObjId, attr: Name, mockValue: Value, i: nat)
    requires klass in h.kinds && h.kinds[klass].Class? && GetAttr(h, klass, attr).Ok? && Callable(GetAttr(h, klass, attr).value)
    requires i < |h.kinds[klass].mro| && HasOwn(h, h.kinds[klass].mro[i], attr) && OwnGet(h, h.kinds[klass].mro[i], attr).FuncV?
    ensures MockPatchSpec(h, klass, attr, mockValue) == Outcome(h, Err(ValueError))
  {
  }

  /**
   * The closure `_patch` builds for the plain branch tests whether the saved
   * entry is truthy; every callable is truthy, so on the entries this
   * module patches (a callable, or none) that agrees with "was there an entry".
   */
  lemma PlainUnpatchAgrees(h: Heap, hh: Heap, target: ObjId, attr: Name)
    requires !HasOwn(h, target, attr) || Callable(OwnGet(h, target, attr))
    ensures var u := RestoreAttribute(target, attr, HasOwn(h, target, attr), OwnGet(h, target, attr));
      Undo(hh, u) == UndoAsWritten(hh, u)
  {
  }

  /**
   * Round trip on a module function: mock it, then tear down; the module
   * holds its function again, the mock is gone from the registry, and no
   * closure raised.
   */
  lemma ModuleFunctionRoundTrip(h: Heap, m: ObjId, attr: Name, f: nat, mid: nat, mocks: map<(ObjId, Name), CallableMock>, cm: CallableMock)
    requires m in h.kinds && h.kinds[m].Module? && HasOwn(h, m, attr) && h.dicts[m][attr] == FuncV(f)
    requires (m, attr) !in mocks
    ensures var o := MockPatchSpec(h, m, attr, MockV(mid));
      o.result == Ok(Patched(FuncV(f), RestoreAttribute(m, attr, true, FuncV(f)))) &&
      GetAttr(o.heap, m, attr) == Ok(MockV(mid)) &&
      var t := RunCleanups(o.heap, mocks[(m, attr) := cm], [ForgetMock((m, attr)), UndoPatch(o.result.value.unpatcher)]);
      t.2.None? && t.1 == mocks && GetAttr(t.0, m, attr) == Ok(FuncV(f))
  {
    var h1 := PutOwn(h, m, attr, MockV(mid));
    assert MockPatchSpec(h, m, attr, MockV(mid)) == Outcome(h1, Ok(Patched(FuncV(f), RestoreAttribute(m, attr, true, FuncV(f)))));
    var key := (m, attr);
    assert mocks[key := cm] - {key} == mocks;
    var h2 := PutOwn(h1, m, attr, FuncV(f));
    assert Undo(h1, RestoreAttribute(m, attr, true, FuncV(f))) == Ok(h2);
    var cs := [ForgetMock(key), UndoPatch(RestoreAttribute(m, attr, true, FuncV(f)))];
    assert cs[1..] == [UndoPatch(RestoreAttribute(m, attr, true, FuncV(f)))] && cs[1..][1..] == [];
    assert RunCleanups(h1, mocks[key := cm], cs) == RunCleanups(h1, mocks, cs[1..]);
    assert RunCleanups(h1, mocks, cs[1..]) == (h2, mocks, None);
  }

  /**
   * `mock_callable` on an attribute a StrictMock (without a template) was
   * given beforehand: the double reads the mock, and the unpatcher `_patch`
   * returns deletes the attribute rather than restoring it, since the double
   * keeps it outside its own `__dict__`.
   */
  lemma DoubleMockUnpatchDeletes(h: Heap, d: ObjId, attr: Name, mid: nat)
    requires d in h.kinds && h.kinds[d] == Double(None, {}) && HasOwn(h, d, attr)
    ensures var o := MockPatchSpec(h, d, attr, MockV(mid));
      o.result == Ok(Patched(NoneV, RestoreAttribute(d, attr, false, NoneV))) &&
      GetAttr(o.heap, d, attr) == Ok(MockV(mid)) &&
      Undo(o.heap, o.result.value.unpatcher).Ok? &&
      GetAttr(Undo(o.heap, o.result.value.unpatcher).value, d, attr) == Err(AttributeError)
  {
    var h1 := PutOwn(h, d, attr, StaticMethodV(MockV(mid)));
    assert MockPatchSpec(h, d, attr, MockV(mid)) == Outcome(h1, Ok(Patched(NoneV, RestoreAttribute(d, attr, false, NoneV))));
    assert Undo(h1, RestoreAttribute(d, attr, false, NoneV)) == Ok(DropOwn(h1, d, attr));
  }

  // -----------------------------------------------------------------------
  // The registry and its teardown

  type Key = (ObjId, Name)

  /** An entry of `_unpatchers`: `del_callable_mock` for a key, or the closure `_patch` returned. */
  datatype Cleanup = ForgetMock(key: Key) | UndoPatch(u: Unpatcher)

  /**
   * `unpatch_all_callable_mocks()`: the closures run in registration order
   * and the first one that raises ends the loop; `CALLABLE_MOCKS` and the
   * heap as they are then, and the exception.
   */
  function RunCleanups(h: Heap, mocks: map<Key, CallableMock>, cs: seq<Cleanup>): (Heap, map<Key, CallableMock>, Option<ExcKind>)
    decreases |cs|
  {
    if cs == [] then (h, mocks, None)
    else match cs[0]
      case ForgetMock(k) =>
        if k in mocks then RunCleanups(h, mocks - {k}, cs[1..]) else (h, mocks, Some(KeyError))
      case UndoPatch(u) =>
        match Undo(h, u)
        case Ok(h') => RunCleanups(h', mocks, cs[1..])
        case Err(e) => (h, mocks, Some(e))
  }

  function ForgottenKeys(cs: seq<Cleanup>): set<Key>
  {
    set i | 0 <= i < |cs| && cs[i].ForgetMock? :: cs[i].key
  }

  /** When no closure raises, exactly the registered keys leave `CALLABLE_MOCKS`. */
  lemma {:induction false} CleanupsForgetRegistered(h: Heap, mocks: map<Key, CallableMock>, cs: seq<Cleanup>)
    ensures RunCleanups(h, mocks, cs).1.Keys <= mocks.Keys
    ensures RunCleanups(h, mocks, cs).2.None? ==> RunCleanups(h, mocks, cs).1 == mocks - ForgottenKeys(cs)
    decreases |cs|
  {
    if cs != [] {
      assert ForgottenKeys(cs) == (if cs[0].ForgetMock? then {cs[0].key} else {}) + ForgottenKeys(cs[1..]) by {
        forall k | k in ForgottenKeys(cs) ensures k in (if cs[0].ForgetMock? then {cs[0].key} else {}) + ForgottenKeys(cs[1..]) {
          var i :| 0 <= i < |cs| && cs[i].ForgetMock? && cs[i].key == k;
          if i > 0 {
            assert cs[1..][i - 1] == cs[i];
          }
        }
        forall k | k in ForgottenKeys(cs[1..]) ensures k in ForgottenKeys(cs) {
          var i :| 0 <= i < |cs[1..]| && cs[1..][i].ForgetMock? && cs[1..][i].key == k;
          assert cs[i + 1] == cs[1..][i];
        }
      }
      match cs[0]
      case ForgetMock(k) =>
        if k in mocks {
          CleanupsForgetRegistered(h, mocks - {k}, cs[1..]);
        }
      case UndoPatch(u) =>
        if Undo(h, u).Ok? {
          CleanupsForgetRegistered(Undo(h, u).value, mocks, cs[1..]);
        }
    }
  }

  /** A registered `and_assert_*` closure: the runner it reads (mock and insertion number) and its check. */
  datatype Registered = Registered(mock: CallableMock, rid: nat, assertion: Assertion)

  /** Running a registered closure: whether it raises AssertionError now. */
  predicate Fails(x: Registered)
    reads x.mock
  {
    x.rid < |x.mock.runners| && AssertionFails(x.assertion, x.mock.runners[|x.mock.runners| - 1 - x.rid].callCount)
  }

  /**
   * The module-level state: `_MockCallableDSL.CALLABLE_MOCKS`, the
   * `_unpatchers` list, and the closures handed to `register_assertion`
   * (which the test framework collects).  `created` numbers the
   * `_CallableMock` objects, which are installed as `MockV(number)`.
   */
  class Registry {
    var mocks: map<Key, CallableMock>
    var cleanups: seq<Cleanup>
    var assertions: seq<Registered>
    var created: nat

    constructor ()
      ensures mocks == map[] && cleanups == [] && assertions == [] && created == 0
    {
      mocks := map[];
      cleanups := [];
      assertions := [];
      created := 0;
    }

    /** `unpatch_all_callable_mocks()`: whatever happens, `_unpatchers` ends empty. */
    method UnpatchAll(space: ObjectSpace) returns (err: Option<ExcKind>)
      modifies this, space
      ensures cleanups == []
      ensures (space.heap, mocks, err) == RunCleanups(old(space.heap), old(mocks), old(cleanups))
      ensures assertions == old(assertions) && created == old(created)
    {
      var i := 0;
      err := None;
      while i < |cleanups|
        invariant 0 <= i <= |cleanups|
        invariant RunCleanups(space.heap, mocks, cleanups[i..]) == RunCleanups(old(space.heap), old(mocks), old(cleanups))
        invariant cleanups == old(cleanups) && assertions == old(assertions) && created == old(created)
        decreases |cleanups| - i
      {
        assert cleanups[i..][0] == cleanups[i] && cleanups[i..][1..] == cleanups[i + 1..];
        match cleanups[i] {
          case ForgetMock(k) =>
            if k !in mocks {
              err := Some(KeyError);
              break;
            }
            mocks := mocks - {k};
          case UndoPatch(u) =>
            var e := Unpatch(space, u);
            if e.Some? {
              err := e;
              break;
            }
        }
        i := i + 1;
      }
      cleanups := [];
    }

    /**
     * `_MockCallableDSL.__init__(target, method, callable_mock,
     * original_callable, prepend_first_arg)`: the first chain for a key
     * registers the mock and its removal, then (for a mock it created)
     * patches the target; later chains reuse the registered mock, reading
     * its `original_callable`, which a failed `_patch` left unset.
     */
    method NewChain(space: ObjectSpace, target: ObjId, attr: Name, given: Option<CallableMock>,
                    originalCallable: Value, prepend: Value) returns (r: Result<MockCallableDSL, ExcKind>)
      modifies this, space, if given.Some? then {given.value} else {}
      ensures assertions == old(assertions)
      ensures (target, attr) in old(mocks) ==>
        mocks == old(mocks) && cleanups == old(cleanups) && space.heap == old(space.heap) && created == old(created) &&
        mocks[(target, attr)].original == old(mocks[(target, attr)].original) &&
        (old(mocks[(target, attr)].original).None? ==> r == Err(AttributeError)) &&
        (old(mocks[(target, attr)].original).Some? ==>
           r.Ok? && r.value.mock == old(mocks)[(target, attr)] && r.value.Valid() && r.value.runner.None? &&
           r.value.originalCallable == old(mocks[(target, attr)].original).value && r.value.prependFirstArg == prepend)
      ensures (target, attr) !in old(mocks) && given.Some? ==>
        r.Ok? && r.value.mock == given.value && mocks == old(mocks)[(target, attr) := given.value] &&
        cleanups == old(cleanups) + [ForgetMock((target, attr))] && space.heap == old(space.heap) &&
        given.value.original == Some(originalCallable) && r.value.originalCallable == originalCallable && created == old(created)
      ensures (target, attr) !in old(mocks) && given.None? && SignatureRefused(old(space.heap), target, attr) ==>
        r == Err(TypeError) && space.heap == old(space.heap) && (target, attr) in mocks && mocks[(target, attr)].original.None?
      ensures (target, attr) !in old(mocks) && given.None? ==>
        var o := MockPatchSpec(old(space.heap), target, attr, MockV(old(created)));
        (target, attr) in mocks && fresh(mocks[(target, attr)]) && mocks == old(mocks)[(target, attr) := mocks[(target, attr)]] &&
        space.heap == o.heap && created == old(created) + 1 &&
        (o.result.Err? ==>
           r == Err(o.result.error) && cleanups == old(cleanups) + [ForgetMock((target, attr))] &&
           mocks[(target, attr)].original.None?) &&
        (o.result.Ok? ==>
           r.Ok? && r.value.mock == mocks[(target, attr)] && r.value.Valid() && r.value.runner.None? &&
           cleanups == old(cleanups) + [ForgetMock((target, attr)), UndoPatch(o.result.value.unpatcher)] &&
           r.value.originalCallable == o.result.value.original && r.value.mock.original == Some(o.result.value.original) &&
           r.value.mock.runners == [])
    {
      var key := (target, attr);
      if key in mocks {
        var m := mocks[key];
        if m.original.None? {
          return Err(AttributeError);
        }
        var dsl := new MockCallableDSL(this, m, prepend, m.original.value);
        return Ok(dsl);
      }
      var m: CallableMock;
      var original := originalCallable;
      if given.Some? {
        m := given.value;
      } else {
        m := new CallableMock(target, attr, created);
        created := created + 1;
      }
      mocks := mocks[key := m];
      cleanups := cleanups + [ForgetMock(key)];
      if given.None? {
        var o := MockPatchSpec(space.heap, target, attr, MockV(m.mid));
        space.heap := o.heap;
        if o.result.Err? {
          return Err(o.result.error);
        }
        cleanups := cleanups + [UndoPatch(o.result.value.unpatcher)];
        original := o.result.value.original;
      }
      m.original := Some(original);
      var dsl := new MockCallableDSL(this, m, prepend, original);
      r := Ok(dsl);
    }

    /** `mock_callable(target, method)`: `__new__` is refused; anything else starts a chain. */
    method MockCallableFor(space: ObjectSpace, target: ObjId, attr: Name) returns (r: Result<MockCallableDSL, ExcKind>)
      modifies this, space
      ensures attr == "__new__" ==> r == Err(ValueError) && mocks == old(mocks) && cleanups == old(cleanups) && space.heap == old(space.heap)
      ensures attr != "__new__" && (target, attr) in old(mocks) ==>
        mocks == old(mocks) && cleanups == old(cleanups) && space.heap == old(space.heap) &&
        (old(mocks[(target, attr)].original).None? ==> r == Err(AttributeError)) &&
        (old(mocks[(target, attr)].original).Some? ==> r.Ok? && r.value.mock == old(mocks)[(target, attr)])
      ensures attr != "__new__" && (target, attr) !in old(mocks) && SignatureRefused(old(space.heap), target, attr) ==>
        r == Err(TypeError) && space.heap == old(space.heap) && (target, attr) in mocks && mocks[(target, attr)].original.None?
      ensures attr != "__new__" && (target, attr) !in old(mocks) ==>
        var o := MockPatchSpec(old(space.heap), target, attr, MockV(old(created)));
        (target, attr) in mocks && space.heap == o.heap &&
        (o.result.Err? ==> r == Err(o.result.error) && mocks[(target, attr)].original.None?) &&
        (o.result.Ok? ==>
           r.Ok? && r.value.mock == mocks[(target, attr)] && mocks[(target, attr)].original == Some(o.result.value.original))
    {
      if attr == "__new__" {
        return Err(ValueError);
      }
      r := NewChain(space, target, attr, None, NoneV, NoneV);
    }
  }

  /**
   * `mock_callable` twice on a key whose patch fails: the first call raises
   * what `_patch` raised and leaves its mock registered without
   * `original_callable`, so the second raises AttributeError.
   */
  method PatchFailureThenRetry(reg: Registry, space: ObjectSpace, target: ObjId, attr: Name)
    returns (first: Result<MockCallableDSL, ExcKind>, second: Result<MockCallableDSL, ExcKind>)
    requires attr != "__new__" && (target, attr) !in reg.mocks
    requires MockPatchSpec(space.heap, target, attr, MockV(reg.created)).result.Err?
    modifies reg, space
    ensures first == Err(MockPatchSpec(old(space.heap), target, attr, MockV(old(reg.created))).result.error)
    ensures second == Err(AttributeError)
  {
    first := reg.MockCallableFor(space, target, attr);
    second := reg.MockCallableFor(space, target, attr);
  }

  // -----------------------------------------------------------------------
  // The `mock_callable()` chain

  /** A behaviour method of the chain, with its argument. */
  datatype Request =
    | ToReturnValue(value: Value)
    | ToReturnValues(valuesList: Value)
    | ToYieldValues(valuesList: Value)
    | ToRaise(ex: Value)
    | WithImplementation(func: Value)
    | WithWrapper(func: Value)
    | ToCallOriginal

  /**
   * The runner a behaviour method builds, or the ValueError (or the
   * TypeError of calling a non-callable `ex`) it raises first.  Calling a
   * callable `ex` that is not an exception class is taken to give a
   * non-exception.
   */
  function BehaviourFor(req: Request, original: Value, prepend: Value): (r: Result<Behaviour, ExcKind>)
    ensures (req.ToReturnValues? || req.ToYieldValues?) ==> (r.Err? <==> !req.valuesList.ListV?)
    ensures (req.WithImplementation? || req.WithWrapper?) && !Callable(req.func) ==> r == Err(ValueError)
    ensures (req.WithWrapper? || req.ToCallOriginal?) && !Truthy(original) ==> r == Err(ValueError)
    ensures req.ToRaise? ==> (r.Ok? <==> req.ex.ExcV? || (req.ex.TypeV? && req.ex.t.ExceptionType?))
    ensures r.Err? ==> r.error == ValueError || (req.ToRaise? && r.error == TypeError)
  {
    match req
    case ToReturnValue(v) => Ok(ReturnValue(v))
    case ToReturnValues(vs) => if vs.ListV? then Ok(ReturnValues(Reverse(vs.items))) else Err(ValueError)
    case ToYieldValues(vs) => if vs.ListV? then Ok(YieldValues(vs.items, 0)) else Err(ValueError)
    case ToRaise(ex) =>
      if ex.ExcV? then Ok(RaiseExc(ex.kind))
      else if ex.TypeV? && ex.t.ExceptionType? then Ok(RaiseExc(ex.t.kind))
      else if !Callable(ex) then Err(TypeError)
      else Err(ValueError)
    case WithImplementation(f) => if Callable(f) then Ok(Implementation(f)) else Err(ValueError)
    case WithWrapper(f) =>
      if !Callable(f) then Err(ValueError)
      else if !Truthy(original) then Err(ValueError)
      else Ok(Wrapper(f, original, prepend))
    case ToCallOriginal => if Truthy(original) then Ok(CallOriginal(original)) else Err(ValueError)
  }

  /** `for_call` prepends `prepend_first_arg` when it is truthy. */
  function WithPrepended(prepend: Value, args: seq<Pattern>): (r: seq<Pattern>)
    ensures Truthy(prepend) ==> |r| == |args| + 1 && r[0] == Lit(prepend) && r[1..] == args
    ensures !Truthy(prepend) ==> r == args
  {
    if Truthy(prepend) then [Lit(prepend)] + args else args
  }

  /** One `self.mock_callable(target, method)...` chain. */
  class MockCallableDSL {
    const registry: Registry
    const mock: CallableMock
    const prependFirstArg: Value
    const originalCallable: Value
    /** The insertion number of the runner this chain defined, if any. */
    var runner: Option<nat>
    var nextAccepted: Option<Accepted>

    ghost predicate Valid()
      reads this, mock
    {
      runner.Some? ==> runner.value < |mock.runners|
    }

    constructor (registry: Registry, mock: CallableMock, prepend: Value, originalCallable: Value)
      ensures this.registry == registry && this.mock == mock && prependFirstArg == prepend
      ensures this.originalCallable == originalCallable && runner.None? && nextAccepted.None?
    {
      this.registry := registry;
      this.mock := mock;
      this.prependFirstArg := prepend;
      this.originalCallable := originalCallable;
      runner := None;
      nextAccepted := None;
    }

    /**
     * `_add_runner`: only one behaviour per chain; pending `for_call`
     * arguments go to the new runner, which is inserted at the front.
     */
    method AddRunner(b: Behaviour) returns (err: Option<ExcKind>)
      requires Valid()
      modifies this, mock
      ensures Valid() && mock.original == old(mock.original)
      ensures old(runner).Some? ==>
        err == Some(ValueError) && runner == old(runner) && nextAccepted == old(nextAccepted) && mock.runners == old(mock.runners)
      ensures old(runner).None? ==>
        err.None? && nextAccepted.None? && runner == Some(|old(mock.runners)|) &&
        mock.runners == [Runner(b, old(nextAccepted), 0)] + old(mock.runners)
    {
      if runner.Some? {
        return Some(ValueError);
      }
      var accepted := nextAccepted;
      nextAccepted := None;
      runner := Some(|mock.runners|);
      mock.runners := [Runner(b, accepted, 0)] + mock.runners;
      err := None;
    }

    /** A behaviour method (`to_return_value`, `to_raise`, `with_wrapper`, ...): its own checks, then `_add_runner`. */
    method Define(req: Request) returns (err: Option<ExcKind>)
      requires Valid()
      modifies this, mock
      ensures Valid() && mock.original == old(mock.original)
      ensures var b := BehaviourFor(req, originalCallable, prependFirstArg);
        if b.Err? || old(runner).Some? then
          err == Some(if b.Err? then b.error else ValueError) &&
          runner == old(runner) && nextAccepted == old(nextAccepted) && mock.runners == old(mock.runners)
        else
          err.None? && nextAccepted.None? && runner == Some(|old(mock.runners)|) &&
          mock.runners == [Runner(b.value, old(nextAccepted), 0)] + old(mock.runners)
    {
      var b := BehaviourFor(req, originalCallable, prependFirstArg);
      if b.Err? {
        return Some(b.error);
      }
      err := AddRunner(b.value);
    }

    /** `for_call(*args, **kwargs)`: set on this chain's runner, or kept for the runner to come. */
    method ForCall(args: seq<Pattern>, kwargs: seq<(Name, Pattern)>)
      requires Valid()
      modifies this, mock
      ensures Valid() && runner == old(runner) && mock.original == old(mock.original)
      ensures var a := Accepted(WithPrepended(prependFirstArg, args), kwargs);
        match old(runner)
        case Some(rid) =>
          var i := |old(mock.runners)| - 1 - rid;
          mock.runners == old(mock.runners)[i := old(mock.runners)[i].(accepted := Some(a))] &&
          nextAccepted == old(nextAccepted)
        case None => nextAccepted == Some(a) && mock.runners == old(mock.runners)
    {
      var a := Accepted(WithPrepended(prependFirstArg, args), kwargs);
      if runner.Some? {
        var i := |mock.runners| - 1 - runner.value;
        mock.runners := mock.runners[i := mock.runners[i].(accepted := Some(a))];
      } else {
        nextAccepted := Some(a);
      }
    }

    /**
     * `and_assert_called_exactly` / `_at_least` / `_at_most(times)` (and
     * their shorthands): `at_least`/`at_most` refuse `times < 1` first;
     * every one needs a behaviour; then the closure is registered.
     */
    method AndAssertCalled(check: CountCheck, times: int) returns (err: Option<ExcKind>)
      requires Valid()
      modifies registry
      ensures registry.mocks == old(registry.mocks) && registry.cleanups == old(registry.cleanups)
      ensures registry.created == old(registry.created)
      ensures (check != Exactly && times < 1) || runner.None? ==>
        err == Some(ValueError) && registry.assertions == old(registry.assertions)
      ensures !((check != Exactly && times < 1) || runner.None?) ==>
        err.None? && registry.assertions == old(registry.assertions) + [Registered(mock, runner.value, Assertion(check, times))]
    {
      if check != Exactly && times < 1 {
        return Some(ValueError);
      }
      if runner.None? {
        return Some(ValueError);
      }
      registry.assertions := registry.assertions + [Registered(mock, runner.value, Assertion(check, times))];
      err := None;
    }
  }
}
