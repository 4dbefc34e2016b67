/**
 * Choosing and running examples, testslide/executor/runner.py: `Runner`'s
 * `_filter`, `_all_examples`, `_to_execute_examples`, `_run_example`
 * (its `fail_if_focused` refusal) and the `run` loop.
 *
 * A compiled regular expression is an oracle: `Regex` says whether the
 * pattern matches at the start of a string (`re.match`); `re.search`
 * tries every position.  What running one example raises is the oracle
 * `outcome` (the example runner of module ExampleExecution computes it).
 * The formatter is an external collaborator; the calls `run` makes on it
 * are the observable trace, a sequence of `Report`s.
 *
 * Examples are compared by value.  Python compares them by identity, and
 * two examples of one well-formed tree never have equal values, because
 * a context refuses a second example of the same name.
 */
module ExecutorRunner {
  import opened Values
  import opened Contexts

  /** `re.match(pattern, s)` succeeds. */
  type Regex = string -> bool

  /** Which method of a compiled pattern a runner calls. */
  datatype RegexCall = Search | MatchStart

  /** Whether `pattern.search(s)` (or `pattern.match(s)`) finds something. */
  predicate Finds(r: Regex, how: RegexCall, s: string)
  {
    match how
    case MatchStart => r(s)
    case Search => exists i :: 0 <= i <= |s| && r(s[i..])
  }

  /** The options `Runner.__init__` stores (shuffle, seed, quiet and the slow-callback flag aside). */
  datatype Options = Options(
    focus: bool,
    failFast: bool,
    failIfFocused: bool,
    textFilter: Option<string>,
    regexFilter: Option<Regex>,
    regexExclude: Option<Regex>)

  /** `if self.names_text_filter:` — None and the empty string both switch the filter off. */
  predicate TextFilterOn(o: Options)
  {
    o.textFilter.Some? && o.textFilter.value != ""
  }

  /** Every example points into the tree. */
  predicate Placed(nodes: seq<ContextNode>, xs: seq<Example>)
  {
    forall e :: e in xs ==> e.context < |nodes|
  }

  /**
   * `_filter(example, focus)`: the early returns of the source, in their
   * order; the contract is the condition they add up to.
   */
  function Filter(nodes: seq<ContextNode>, o: Options, how: RegexCall, e: Example, focus: bool): (keep: bool)
    requires WellFormed(nodes) && e.context < |nodes|
    ensures keep <==>
      (focus ==> ExampleFocused(nodes, e))
      && !(o.regexExclude.Some? && Finds(o.regexExclude.value, how, ExampleFullName(nodes, e)))
      && (TextFilterOn(o) ==> IsSubstring(o.textFilter.value, ExampleFullName(nodes, e)))
      && (o.regexFilter.Some? ==> Finds(o.regexFilter.value, how, ExampleFullName(nodes, e)))
  {
    var name := ExampleFullName(nodes, e);
    if focus && !ExampleFocused(nodes, e) then false
    else if o.regexExclude.Some? && Finds(o.regexExclude.value, how, name) then false
    else if TextFilterOn(o) && !IsSubstring(o.textFilter.value, name) then false
    else if o.regexFilter.Some? && !Finds(o.regexFilter.value, how, name) then false
    else true
  }

  /** `[example for example in xs if self._filter(example, focus=focus)]`. */
  function Select(nodes: seq<ContextNode>, o: Options, how: RegexCall, xs: seq<Example>, focus: bool): (r: seq<Example>)
    requires WellFormed(nodes) && Placed(nodes, xs)
    ensures |r| <= |xs|
    ensures forall e :: e in r <==> e in xs && Filter(nodes, o, how, e, focus)
  {
    if xs == [] then []
    else
      var rest := Select(nodes, o, how, xs[1..], focus);
      assert forall e :: e in xs <==> e == xs[0] || e in xs[1..];
      if Filter(nodes, o, how, xs[0], focus) then [xs[0]] + rest else rest
  }

  /** The examples of one context lie in the tree, below that context. */
  lemma ExamplesPlaced(nodes: seq<ContextNode>, c: nat)
    requires WellFormed(nodes) && c < |nodes|
    ensures forall e :: e in AllExamplesOf(nodes, c) ==> e.context < |nodes| && c in Hierarchy(nodes, e.context)
  {
    forall e | e in AllExamplesOf(nodes, c)
      ensures e.context < |nodes| && c in Hierarchy(nodes, e.context)
    {
      AllExamplesInSubtree(nodes, c, e);
    }
  }

  /** `_all_examples` without shuffling: each given context's `all_examples`, in the given order. */
  function AllExamples(nodes: seq<ContextNode>, cs: seq<nat>): (r: seq<Example>)
    requires WellFormed(nodes) && InRange(nodes, cs)
    ensures Placed(nodes, r)
    ensures forall e :: e in r ==> exists k :: 0 <= k < |cs| && cs[k] in Hierarchy(nodes, e.context)
  {
    if cs == [] then []
    else
      var front := cs[..|cs| - 1];
      var rest := AllExamples(nodes, front);
      var last := AllExamplesOf(nodes, cs[|cs| - 1]);
      ExamplesPlaced(nodes, cs[|cs| - 1]);
      assert forall k :: 0 <= k < |front| ==> front[k] == cs[k];
      rest + last
  }

  /** `_to_execute_examples`: the focused selection, or, when it is empty, the same filters without focus. */
  function ToExecute(nodes: seq<ContextNode>, o: Options, how: RegexCall, all: seq<Example>): (r: seq<Example>)
    requires WellFormed(nodes) && Placed(nodes, all)
    ensures Placed(nodes, r)
  {
    var xs := Select(nodes, o, how, all, o.focus);
    if xs == [] && o.focus then Select(nodes, o, how, all, false) else xs
  }

  /** Some example passes the filters with focus required. */
  predicate AnyFocusedPasses(nodes: seq<ContextNode>, o: Options, how: RegexCall, all: seq<Example>)
    requires WellFormed(nodes) && Placed(nodes, all)
  {
    exists e :: e in all && Filter(nodes, o, how, e, true)
  }

  /**
   * Which examples run: those that pass the filters, and, when focus is
   * asked for and some example passes with it, only the focused ones.
   */
  lemma SelectedIff(nodes: seq<ContextNode>, o: Options, how: RegexCall, all: seq<Example>, e: Example)
    requires WellFormed(nodes) && Placed(nodes, all)
    ensures e in ToExecute(nodes, o, how, all) <==>
      e in all && Filter(nodes, o, how, e, o.focus && AnyFocusedPasses(nodes, o, how, all))
  {
    var focused := Select(nodes, o, how, all, o.focus);
    if o.focus && AnyFocusedPasses(nodes, o, how, all) {
      var w :| w in all && Filter(nodes, o, how, w, true);
      assert w in focused;
    } else if o.focus {
      if focused != [] {
        assert focused[0] in focused;
      }
    }
  }

  /** When focus finds nothing, the selection falls back to the unfocused filters. */
  lemma FocusFallback(nodes: seq<ContextNode>, o: Options, how: RegexCall, all: seq<Example>)
    requires WellFormed(nodes) && Placed(nodes, all)
    requires o.focus && !AnyFocusedPasses(nodes, o, how, all)
    ensures ToExecute(nodes, o, how, all) == Select(nodes, o, how, all, false)
  {
    NothingSelected(nodes, o, how, all, true);
  }

  /** A selection from examples none of which passes is empty. */
  lemma {:induction false} NothingSelected(nodes: seq<ContextNode>, o: Options, how: RegexCall, xs: seq<Example>, focus: bool)
    requires WellFormed(nodes) && Placed(nodes, xs)
    requires forall e :: e in xs ==> !Filter(nodes, o, how, e, focus)
    ensures Select(nodes, o, how, xs, focus) == []
  {
    if xs != [] {
      assert xs[0] in xs;
      NothingSelected(nodes, o, how, xs[1..], focus);
    }
  }

  /** A `match` at the start of the name is also found by `search`, so an exclude that matches also excludes when searched. */
  lemma MatchIsSearch(r: Regex, s: string)
    requires Finds(r, MatchStart, s)
    ensures Finds(r, Search, s)
  {
    assert s[0..] == s;
  }

  // ---------------------------------------------------------------------
  // Running the selection

  /** How `run`'s `try` ended for one example. */
  datatype Verdict = Passed | Skipped | Failed(exc: Exc)

  /** `except Skip` / `except BaseException` / `else`. */
  function VerdictOf(raised: Option<Exc>): (v: Verdict)
    ensures v.Passed? <==> raised.None?
    ensures v.Skipped? <==> raised == Some(Raised(Skip))
    ensures v.Failed? ==> raised == Some(v.exc)
  {
    match raised
    case None => Passed
    case Some(x) => if x == Raised(Skip) then Skipped else Failed(x)
  }

  /** `_run_example(example)`: a focused example under `fail_if_focused` fails before it runs. */
  function RunExample(nodes: seq<ContextNode>, o: Options, outcome: Example -> Option<Exc>, e: Example): (raised: Option<Exc>)
    requires WellFormed(nodes) && e.context < |nodes|
    ensures o.failIfFocused && ExampleFocused(nodes, e) ==> raised == Some(Raised(AssertionError))
    ensures !(o.failIfFocused && ExampleFocused(nodes, e)) ==> raised == outcome(e)
  {
    if ExampleFocused(nodes, e) && o.failIfFocused then Some(Raised(AssertionError)) else outcome(e)
  }

  function VerdictAt(nodes: seq<ContextNode>, o: Options, outcome: Example -> Option<Exc>, e: Example): Verdict
    requires WellFormed(nodes) && e.context < |nodes|
  {
    VerdictOf(RunExample(nodes, o, outcome, e))
  }

  /**
   * The examples `run` executes, in order: all of `xs`, except that under
   * `fail_fast` it stops right after the first failure.
   */
  function Executed(nodes: seq<ContextNode>, o: Options, outcome: Example -> Option<Exc>, xs: seq<Example>): (r: seq<Example>)
    requires WellFormed(nodes) && Placed(nodes, xs)
    ensures |r| <= |xs| && r == xs[..|r|]
  {
    if xs == [] then []
    else if o.failFast && VerdictAt(nodes, o, outcome, xs[0]).Failed? then [xs[0]]
    else
      var rest := Executed(nodes, o, outcome, xs[1..]);
      assert xs[1..][..|rest|] == xs[1..|rest| + 1];
      [xs[0]] + rest
  }

  /** Without `fail_fast` every selected example runs. */
  lemma {:induction false} ExecutedAll(nodes: seq<ContextNode>, o: Options, outcome: Example -> Option<Exc>, xs: seq<Example>)
    requires WellFormed(nodes) && Placed(nodes, xs)
    requires !o.failFast
    ensures Executed(nodes, o, outcome, xs) == xs
  {
    if xs != [] {
      ExecutedAll(nodes, o, outcome, xs[1..]);
    }
  }

  /**
   * Under `fail_fast` the run stops right after the first failure: no
   * executed example but the last failed, and if examples were left over
   * the last one executed failed.
   */
  lemma {:induction false} FailFastStopsAtFirstFailure(nodes: seq<ContextNode>, o: Options, outcome: Example -> Option<Exc>, xs: seq<Example>)
    requires WellFormed(nodes) && Placed(nodes, xs)
    requires o.failFast
    ensures var r := Executed(nodes, o, outcome, xs);
      (forall k :: 0 <= k < |r| - 1 ==> !VerdictAt(nodes, o, outcome, r[k]).Failed?)
      && (|r| < |xs| ==> |r| > 0 && VerdictAt(nodes, o, outcome, r[|r| - 1]).Failed?)
  {
    if xs != [] && !VerdictAt(nodes, o, outcome, xs[0]).Failed? {
      FailFastStopsAtFirstFailure(nodes, o, outcome, xs[1..]);
      var rest := Executed(nodes, o, outcome, xs[1..]);
      var r := Executed(nodes, o, outcome, xs);
      assert r == [xs[0]] + rest;
      assert forall k :: 0 < k < |r| ==> r[k] == rest[k - 1];
    }
  }

  /** What the formatter is told. */
  datatype Report =
    | Started(e: Example)
    | SkipReported(e: Example)
    | FailReported(e: Example, exc: Exc)
    | SuccessReported(e: Example)
    | Finished(notExecuted: seq<Example>)

  /** The one outcome report for an executed example. */
  function OutcomeReport(e: Example, v: Verdict): Report
  {
    match v
    case Passed => SuccessReported(e)
    case Skipped => SkipReported(e)
    case Failed(x) => FailReported(e, x)
  }

  /** `formatter.start(example)` and then the outcome, for each executed example. */
  function Reports(nodes: seq<ContextNode>, o: Options, outcome: Example -> Option<Exc>, ran: seq<Example>): seq<Report>
    requires WellFormed(nodes) && Placed(nodes, ran)
  {
    if ran == [] then []
    else
      var e := ran[|ran| - 1];
      Reports(nodes, o, outcome, ran[..|ran| - 1]) + [Started(e), OutcomeReport(e, VerdictAt(nodes, o, outcome, e))]
  }

  /**
   * Each executed example is announced once and reported to exactly one
   * of skip, fail and success, according to how it ended.
   */
  lemma {:induction false} ReportedOnce(nodes: seq<ContextNode>, o: Options, outcome: Example -> Option<Exc>, ran: seq<Example>, k: nat)
    requires WellFormed(nodes) && Placed(nodes, ran)
    requires k < |ran|
    ensures |Reports(nodes, o, outcome, ran)| == 2 * |ran|
    ensures Reports(nodes, o, outcome, ran)[2 * k] == Started(ran[k])
    ensures var rep := Reports(nodes, o, outcome, ran)[2 * k + 1];
      match VerdictAt(nodes, o, outcome, ran[k])
      case Passed => rep == SuccessReported(ran[k])
      case Skipped => rep == SkipReported(ran[k])
      case Failed(x) => rep == FailReported(ran[k], x)
  {
    var front := ran[..|ran| - 1];
    if k < |ran| - 1 {
      ReportedOnce(nodes, o, outcome, front, k);
    } else if front != [] {
      ReportedOnce(nodes, o, outcome, front, 0);
    }
  }

  /** `[x for x in xs if x not in ys]`: the not-executed examples, the newly entered contexts. */
  function Without<T(==,!new)>(xs: seq<T>, ys: seq<T>): (r: seq<T>)
    ensures |r| <= |xs|
    ensures forall x :: x in r <==> x in xs && x !in ys
  {
    if xs == [] then []
    else
      var rest := Without(xs[1..], ys);
      assert forall x :: x in xs <==> x == xs[0] || x in xs[1..];
      if xs[0] in ys then rest else [xs[0]] + rest
  }

  /** Some example of `ran` failed. */
  predicate AnyFailed(nodes: seq<ContextNode>, o: Options, outcome: Example -> Option<Exc>, ran: seq<Example>)
    requires WellFormed(nodes) && Placed(nodes, ran)
  {
    exists k :: 0 <= k < |ran| && VerdictAt(nodes, o, outcome, ran[k]).Failed?
  }

  /** One more example that does not stop the run. */
  lemma ExecutedStep(nodes: seq<ContextNode>, o: Options, outcome: Example -> Option<Exc>, xs: seq<Example>, i: nat)
    requires WellFormed(nodes) && Placed(nodes, xs) && i < |xs|
    ensures o.failFast && VerdictAt(nodes, o, outcome, xs[i]).Failed? ==> Executed(nodes, o, outcome, xs[i..]) == [xs[i]]
    ensures !(o.failFast && VerdictAt(nodes, o, outcome, xs[i]).Failed?) ==>
      Executed(nodes, o, outcome, xs[i..]) == [xs[i]] + Executed(nodes, o, outcome, xs[i + 1..])
  {
    assert xs[i..][0] == xs[i] && xs[i..][1..] == xs[i + 1..];
  }

  lemma ReportsOneMore(nodes: seq<ContextNode>, o: Options, outcome: Example -> Option<Exc>, ran: seq<Example>, e: Example)
    requires WellFormed(nodes) && Placed(nodes, ran) && e.context < |nodes|
    ensures Placed(nodes, ran + [e])
    ensures Reports(nodes, o, outcome, ran + [e])
      == Reports(nodes, o, outcome, ran) + [Started(e), OutcomeReport(e, VerdictAt(nodes, o, outcome, e))]
  {
    assert (ran + [e])[..|ran|] == ran;
  }

  lemma FailedOneMore(nodes: seq<ContextNode>, o: Options, outcome: Example -> Option<Exc>, ran: seq<Example>, e: Example)
    requires WellFormed(nodes) && Placed(nodes, ran) && e.context < |nodes|
    ensures Placed(nodes, ran + [e])
    ensures AnyFailed(nodes, o, outcome, ran + [e]) <==>
      AnyFailed(nodes, o, outcome, ran) || VerdictAt(nodes, o, outcome, e).Failed?
  {
    var ran' := ran + [e];
    if AnyFailed(nodes, o, outcome, ran') && !VerdictAt(nodes, o, outcome, e).Failed? {
      var k :| 0 <= k < |ran'| && VerdictAt(nodes, o, outcome, ran'[k]).Failed?;
      assert ran'[k] == ran[k];
    }
    if AnyFailed(nodes, o, outcome, ran) {
      var k :| 0 <= k < |ran| && VerdictAt(nodes, o, outcome, ran[k]).Failed?;
      assert ran'[k] == ran[k];
    }
    if VerdictAt(nodes, o, outcome, e).Failed? {
      assert ran'[|ran|] == e;
    }
  }

  /** `FailedOneMore` for the next example of a selection. */
  lemma FailedAt(nodes: seq<ContextNode>, o: Options, outcome: Example -> Option<Exc>, xs: seq<Example>, i: nat)
    requires WellFormed(nodes) && Placed(nodes, xs) && i < |xs|
    ensures Placed(nodes, xs[..i]) && Placed(nodes, xs[..i + 1])
    ensures AnyFailed(nodes, o, outcome, xs[..i + 1]) <==>
      AnyFailed(nodes, o, outcome, xs[..i]) || VerdictAt(nodes, o, outcome, xs[i]).Failed?
  {
    assert xs[i] in xs;
    assert xs[..i + 1] == xs[..i] + [xs[i]];
    FailedOneMore(nodes, o, outcome, xs[..i], xs[i]);
  }

  /** Examples that do not stop the run are all executed, and the run goes on after them. */
  lemma {:induction false} ExecutedPrefix(nodes: seq<ContextNode>, o: Options, outcome: Example -> Option<Exc>, xs: seq<Example>, i: nat)
    requires WellFormed(nodes) && Placed(nodes, xs) && i <= |xs|
    requires o.failFast ==> forall k :: 0 <= k < i ==> !VerdictAt(nodes, o, outcome, xs[k]).Failed?
    ensures Executed(nodes, o, outcome, xs) == xs[..i] + Executed(nodes, o, outcome, xs[i..])
  {
    if i > 0 {
      ExecutedPrefix(nodes, o, outcome, xs[1..], i - 1);
      assert xs[1..][i - 1..] == xs[i..];
      assert xs[..i] == [xs[0]] + xs[1..][..i - 1];
    }
  }

  /** Under `fail_fast`, the first failure ends the run. */
  lemma StopsAt(nodes: seq<ContextNode>, o: Options, outcome: Example -> Option<Exc>, xs: seq<Example>, i: nat)
    requires WellFormed(nodes) && Placed(nodes, xs) && i < |xs|
    requires o.failFast && !AnyFailed(nodes, o, outcome, xs[..i]) && VerdictAt(nodes, o, outcome, xs[i]).Failed?
    ensures Executed(nodes, o, outcome, xs) == xs[..i + 1]
  {
    assert forall k :: 0 <= k < i ==> xs[..i][k] == xs[k];
    ExecutedPrefix(nodes, o, outcome, xs, i);
    ExecutedStep(nodes, o, outcome, xs, i);
    assert xs[..i + 1] == xs[..i] + [xs[i]];
  }

  /** A run that no failure stopped executes everything. */
  lemma RanToEnd(nodes: seq<ContextNode>, o: Options, outcome: Example -> Option<Exc>, xs: seq<Example>)
    requires WellFormed(nodes) && Placed(nodes, xs)
    requires o.failFast ==> !AnyFailed(nodes, o, outcome, xs)
    ensures Executed(nodes, o, outcome, xs) == xs
  {
    ExecutedPrefix(nodes, o, outcome, xs, |xs|);
    assert xs[..|xs|] == xs && xs[|xs|..] == [];
  }

  /** The loop of `run()` over the selected examples `xs`. */
  method RunSelection(nodes: seq<ContextNode>, o: Options, outcome: Example -> Option<Exc>, xs: seq<Example>)
    returns (exitCode: int, executed: seq<Example>, reports: seq<Report>)
    requires WellFormed(nodes) && Placed(nodes, xs)
    ensures executed == Executed(nodes, o, outcome, xs)
    ensures reports == Reports(nodes, o, outcome, executed)
    ensures exitCode == (if AnyFailed(nodes, o, outcome, executed) then 1 else 0)
  {
    executed := [];
    exitCode := 0;
    reports := [];
    var i := 0;
    while i < |xs|
      invariant 0 <= i <= |xs|
      invariant executed == xs[..i] && Placed(nodes, executed)
      invariant reports == Reports(nodes, o, outcome, executed)
      invariant exitCode == (if AnyFailed(nodes, o, outcome, executed) then 1 else 0)
      invariant o.failFast ==> exitCode == 0
    {
      var e := xs[i];
      assert e in xs;
      var v := VerdictOf(RunExample(nodes, o, outcome, e));
      ReportsOneMore(nodes, o, outcome, executed, e);
      FailedOneMore(nodes, o, outcome, executed, e);
      if v.Failed? && o.failFast {
        StopsAt(nodes, o, outcome, xs, i);
      }
      assert xs[..i + 1] == executed + [e];
      executed := executed + [e];
      reports := reports + [Started(e), OutcomeReport(e, v)];
      if v.Failed? {
        exitCode := 1;
        if o.failFast {
          return;
        }
      }
      i := i + 1;
    }
    assert xs[..i] == xs;
    RanToEnd(nodes, o, outcome, xs);
  }

  /**
   * `run()`: executes the selection, reports each example, stops after the
   * first failure under `fail_fast`, reports the examples it did not run,
   * and returns 1 exactly when some executed example raised something other
   * than Skip.
   */
  method Run(nodes: seq<ContextNode>, contexts: seq<nat>, o: Options, outcome: Example -> Option<Exc>)
    returns (exitCode: int, reports: seq<Report>)
    requires WellFormed(nodes) && InRange(nodes, contexts)
    ensures var all := AllExamples(nodes, contexts);
      var ran := Executed(nodes, o, outcome, ToExecute(nodes, o, Search, all));
      && reports == Reports(nodes, o, outcome, ran) + [Finished(Without(all, ran))]
      && (exitCode == 1 <==> AnyFailed(nodes, o, outcome, ran))
      && (exitCode == 0 <==> !AnyFailed(nodes, o, outcome, ran))
  {
    var all := AllExamples(nodes, contexts);
    var executed, trace;
    exitCode, executed, trace := RunSelection(nodes, o, outcome, ToExecute(nodes, o, Search, all));
    reports := trace + [Finished(Without(all, executed))];
  }
}
