/**
 * The older runner, testslide/runner.py: `Runner.run`, `_filter` and
 * `_to_execute_examples` (which differ from testslide/executor/runner.py
 * in calling `re.match` where the newer one calls `re.search`, and in
 * having no `fail_if_focused` option), and the result bookkeeping of the
 * base `Formatter`: `reset`, `start`, `success`, `fail` and `skip`.
 *
 * The selection and the run are specified by the functions of module
 * ExecutorRunner, called with `MatchStart`.  What running one example
 * raises is the oracle `outcome`.
 */
module LegacyRunner {
  import opened Values
  import opened Contexts
  import opened ExecutorRunner

  /** The examples of `ran` that passed, in order. */
  function Successes(nodes: seq<ContextNode>, o: Options, outcome: Example -> Option<Exc>, ran: seq<Example>): (r: seq<Example>)
    requires WellFormed(nodes) && Placed(nodes, ran)
  {
    if ran == [] then []
    else
      var e := ran[|ran| - 1];
      var front := ran[..|ran| - 1];
      Successes(nodes, o, outcome, front) + (if VerdictAt(nodes, o, outcome, e).Passed? then [e] else [])
  }

  /** The examples of `ran` that raised Skip, in order. */
  function Skips(nodes: seq<ContextNode>, o: Options, outcome: Example -> Option<Exc>, ran: seq<Example>): (r: seq<Example>)
    requires WellFormed(nodes) && Placed(nodes, ran)
  {
    if ran == [] then []
    else
      var e := ran[|ran| - 1];
      var front := ran[..|ran| - 1];
      Skips(nodes, o, outcome, front) + (if VerdictAt(nodes, o, outcome, e).Skipped? then [e] else [])
  }

  /** The examples of `ran` that failed, each with its exception, in order. */
  function Failures(nodes: seq<ContextNode>, o: Options, outcome: Example -> Option<Exc>, ran: seq<Example>): (r: seq<(Example, Exc)>)
    requires WellFormed(nodes) && Placed(nodes, ran)
  {
    if ran == [] then []
    else
      var e := ran[|ran| - 1];
      var front := ran[..|ran| - 1];
      var v := VerdictAt(nodes, o, outcome, e);
      Failures(nodes, o, outcome, front) + (if v.Failed? then [(e, v.exc)] else [])
  }

  /**
   * An example is in the success, skip or fail list exactly when it was
   * executed and passed, raised Skip, or failed with that exception.
   */
  lemma {:induction false} ResultsMeaning(nodes: seq<ContextNode>, o: Options, outcome: Example -> Option<Exc>, ran: seq<Example>, e: Example)
    requires WellFormed(nodes) && Placed(nodes, ran) && e.context < |nodes|
    ensures e in Successes(nodes, o, outcome, ran) <==> e in ran && VerdictAt(nodes, o, outcome, e).Passed?
    ensures e in Skips(nodes, o, outcome, ran) <==> e in ran && VerdictAt(nodes, o, outcome, e).Skipped?
    ensures forall x :: (e, x) in Failures(nodes, o, outcome, ran) <==> e in ran && VerdictAt(nodes, o, outcome, e) == Failed(x)
  {
    if ran != [] {
      var front := ran[..|ran| - 1];
      assert forall y :: y in ran <==> y in front || y == ran[|ran| - 1];
      ResultsMeaning(nodes, o, outcome, front, e);
    }
  }

  /** Every executed example lands in exactly one of the three result lists. */
  lemma {:induction false} ResultsPartition(nodes: seq<ContextNode>, o: Options, outcome: Example -> Option<Exc>, ran: seq<Example>)
    requires WellFormed(nodes) && Placed(nodes, ran)
    ensures |Successes(nodes, o, outcome, ran)| + |Skips(nodes, o, outcome, ran)| + |Failures(nodes, o, outcome, ran)| == |ran|
  {
    if ran != [] {
      ResultsPartition(nodes, o, outcome, ran[..|ran| - 1]);
    }
  }

  /** `Formatter`'s bookkeeping: `current_hierarchy` and the three lists of `results`. */
  class Formatter {
    var currentHierarchy: seq<nat>
    var successes: seq<Example>
    var failures: seq<(Example, Exc)>
    var skips: seq<Example>

    /** `__init__` ends with `reset()`. */
    constructor ()
      ensures currentHierarchy == [] && successes == [] && failures == [] && skips == []
    {
      currentHierarchy := [];
      successes := [];
      failures := [];
      skips := [];
    }

    /** `reset()`: a new run starts with no hierarchy and empty results. */
    method Reset()
      modifies this
      ensures currentHierarchy == [] && successes == [] && failures == [] && skips == []
    {
      currentHierarchy := [];
      successes := [];
      failures := [];
      skips := [];
    }

    /**
     * `start(example)`: the contexts of the example's hierarchy that the
     * previous example's hierarchy did not hold are announced
     * (`new_context`), in hierarchy order; the hierarchy is then remembered.
     */
    method Start(nodes: seq<ContextNode>, e: Example) returns (announced: seq<nat>)
      requires WellFormed(nodes) && e.context < |nodes|
      modifies this`currentHierarchy
      ensures announced == Without(Hierarchy(nodes, e.context), old(currentHierarchy))
      ensures currentHierarchy == Hierarchy(nodes, e.context)
    {
      announced := Without(Hierarchy(nodes, e.context), currentHierarchy);
      currentHierarchy := Hierarchy(nodes, e.context);
    }

    /** `success(example)`. */
    method Success(e: Example)
      modifies this`successes
      ensures successes == old(successes) + [e]
    {
      successes := successes + [e];
    }

    /** `fail(example, exception)`. */
    method Fail(e: Example, x: Exc)
      modifies this`failures
      ensures failures == old(failures) + [(e, x)]
    {
      failures := failures + [(e, x)];
    }

    /** `skip(example, reason)`; the reason is not kept here. */
    method Skip(e: Example)
      modifies this`skips
      ensures skips == old(skips) + [e]
    {
      skips := skips + [e];
    }
  }

  /** The first example after `reset()` announces its whole hierarchy. */
  lemma {:induction false} WithoutNothing<T(!new)>(xs: seq<T>)
    ensures Without(xs, []) == xs
  {
    if xs != [] {
      WithoutNothing(xs[1..]);
    }
  }

  /**
   * An example whose contexts were all in the previous hierarchy (one of
   * the same context, or of an enclosing one) announces nothing.
   */
  lemma {:induction false} KnownContextsNotAnnounced<T(!new)>(h: seq<T>, previous: seq<T>)
    requires forall c :: c in h ==> c in previous
    ensures Without(h, previous) == []
  {
    if h != [] {
      assert h[0] in h;
      KnownContextsNotAnnounced(h[1..], previous);
    }
  }

  /** The result lists after one more executed example. */
  lemma ResultsOneMore(nodes: seq<ContextNode>, o: Options, outcome: Example -> Option<Exc>, ran: seq<Example>, e: Example)
    requires WellFormed(nodes) && Placed(nodes, ran) && e.context < |nodes|
    ensures var v := VerdictAt(nodes, o, outcome, e);
      && Successes(nodes, o, outcome, ran + [e]) == Successes(nodes, o, outcome, ran) + (if v.Passed? then [e] else [])
      && Skips(nodes, o, outcome, ran + [e]) == Skips(nodes, o, outcome, ran) + (if v.Skipped? then [e] else [])
      && Failures(nodes, o, outcome, ran + [e]) == Failures(nodes, o, outcome, ran) + (if v.Failed? then [(e, v.exc)] else [])
  {
    assert (ran + [e])[..|ran|] == ran;
  }

  /** Result lists and a hierarchy that are those of the examples `ran`. */
  ghost predicate Tally(successes: seq<Example>, skips: seq<Example>, failures: seq<(Example, Exc)>, hierarchy: seq<nat>,
                        nodes: seq<ContextNode>, o: Options, outcome: Example -> Option<Exc>, ran: seq<Example>)
    requires WellFormed(nodes) && Placed(nodes, ran)
  {
    && successes == Successes(nodes, o, outcome, ran)
    && skips == Skips(nodes, o, outcome, ran)
    && failures == Failures(nodes, o, outcome, ran)
    && hierarchy == (if ran == [] then [] else Hierarchy(nodes, ran[|ran| - 1].context))
  }

  /** One more example: its hierarchy becomes the current one and it joins the list of its verdict. */
  lemma TallyOneMore(successes: seq<Example>, skips: seq<Example>, failures: seq<(Example, Exc)>, hierarchy: seq<nat>,
                     nodes: seq<ContextNode>, o: Options, outcome: Example -> Option<Exc>, ran: seq<Example>, e: Example)
    requires WellFormed(nodes) && Placed(nodes, ran) && e.context < |nodes|
    requires Tally(successes, skips, failures, hierarchy, nodes, o, outcome, ran)
    ensures Placed(nodes, ran + [e])
    ensures var v := VerdictAt(nodes, o, outcome, e);
      Tally(successes + (if v.Passed? then [e] else []), skips + (if v.Skipped? then [e] else []),
            failures + (if v.Failed? then [(e, v.exc)] else []), Hierarchy(nodes, e.context),
            nodes, o, outcome, ran + [e])
  {
    ResultsOneMore(nodes, o, outcome, ran, e);
  }

  /** The formatter holds the results of the examples `ran`, and the hierarchy of the last one. */
  ghost predicate Recorded(f: Formatter, nodes: seq<ContextNode>, o: Options, outcome: Example -> Option<Exc>, ran: seq<Example>)
    reads f
  {
    WellFormed(nodes) && Placed(nodes, ran) &&
    Tally(f.successes, f.skips, f.failures, f.currentHierarchy, nodes, o, outcome, ran)
  }

  /**
   * The body of the `for` loop of `run()` for the example `xs[i]`: start,
   * run, and the one matching report; `xs[..i]` are the examples executed
   * before it.
   */
  method RunOne(f: Formatter, nodes: seq<ContextNode>, o: Options, outcome: Example -> Option<Exc>, xs: seq<Example>, i: nat)
    returns (v: Verdict)
    requires WellFormed(nodes) && Placed(nodes, xs) && i < |xs|
    requires Recorded(f, nodes, o, outcome, xs[..i])
    modifies f
    ensures Placed(nodes, xs[..i + 1]) && Recorded(f, nodes, o, outcome, xs[..i + 1])
    ensures v == VerdictAt(nodes, o, outcome, xs[i])
    ensures AnyFailed(nodes, o, outcome, xs[..i + 1]) <==> AnyFailed(nodes, o, outcome, xs[..i]) || v.Failed?
  {
    FailedAt(nodes, o, outcome, xs, i);
    var e := xs[i];
    assert e in xs;
    assert xs[..i + 1] == xs[..i] + [e];
    TallyOneMore(f.successes, f.skips, f.failures, f.currentHierarchy, nodes, o, outcome, xs[..i], e);
    var _ := f.Start(nodes, e);
    v := VerdictOf(RunExample(nodes, o, outcome, e));
    if v.Skipped? {
      f.Skip(e);
    } else if v.Failed? {
      f.Fail(e, v.exc);
    } else {
      f.Success(e);
    }
  }

  /**
   * The loop of `run()` over the selected examples `xs`, reporting to `f`;
   * `executed_examples` is `xs[..i]` at the head of each iteration.
   */
  method RunSelection(f: Formatter, nodes: seq<ContextNode>, o: Options, outcome: Example -> Option<Exc>, xs: seq<Example>)
    returns (exitCode: int, executed: seq<Example>)
    requires WellFormed(nodes) && Placed(nodes, xs)
    requires Recorded(f, nodes, o, outcome, [])
    modifies f
    ensures executed == Executed(nodes, o, outcome, xs)
    ensures Recorded(f, nodes, o, outcome, executed)
    ensures exitCode == (if AnyFailed(nodes, o, outcome, executed) then 1 else 0)
  {
    exitCode := 0;
    var i := 0;
    assert xs[..0] == [];
    while i < |xs|
      invariant 0 <= i <= |xs|
      invariant Recorded(f, nodes, o, outcome, xs[..i])
      invariant exitCode == (if AnyFailed(nodes, o, outcome, xs[..i]) then 1 else 0)
      invariant o.failFast ==> !AnyFailed(nodes, o, outcome, xs[..i])
    {
      if o.failFast && VerdictAt(nodes, o, outcome, xs[i]).Failed? {
        StopsAt(nodes, o, outcome, xs, i);
      }
      var v := RunOne(f, nodes, o, outcome, xs, i);
      if v.Failed? {
        exitCode := 1;
        if o.failFast {
          return exitCode, xs[..i + 1];
        }
      }
      i := i + 1;
    }
    assert xs[..i] == xs;
    RanToEnd(nodes, o, outcome, xs);
    executed := xs;
  }

  /**
   * `run()`: resets the formatter, then runs the selection (with
   * `re.match` for the regular expressions), recording each example in
   * the result list of its outcome and stopping after the first failure
   * under `fail_fast`.  It returns 1 exactly when some executed example
   * raised something other than Skip, and hands the examples it did not
   * run to `finish`.
   */
  method Run(f: Formatter, nodes: seq<ContextNode>, contexts: seq<nat>, o: Options, outcome: Example -> Option<Exc>)
    returns (exitCode: int, notExecuted: seq<Example>)
    requires WellFormed(nodes) && InRange(nodes, contexts) && !o.failIfFocused
    modifies f
    ensures var all := AllExamples(nodes, contexts);
      var ran := Executed(nodes, o, outcome, ToExecute(nodes, o, MatchStart, all));
      && f.successes == Successes(nodes, o, outcome, ran)
      && f.skips == Skips(nodes, o, outcome, ran)
      && f.failures == Failures(nodes, o, outcome, ran)
      && f.currentHierarchy == (if ran == [] then [] else Hierarchy(nodes, ran[|ran| - 1].context))
      && notExecuted == Without(all, ran)
      && (exitCode == 1 <==> AnyFailed(nodes, o, outcome, ran))
      && (exitCode == 0 <==> !AnyFailed(nodes, o, outcome, ran))
  {
    var all := AllExamples(nodes, contexts);
    f.Reset();
    var executed;
    exitCode, executed := RunSelection(f, nodes, o, outcome, ToExecute(nodes, o, MatchStart, all));
    notExecuted := Without(all, executed);
  }
}
