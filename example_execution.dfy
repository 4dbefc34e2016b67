/**
 * Running one example, testslide/executor/lib.py: the synchronous hook
 * schedule of `_ExampleRunner._sync_run_all_hooks_and_example`, the
 * coroutine refusal of `_fail_if_coroutine_function`, and `run` with the
 * teardown in its `finally`.
 *
 * What a user callable does when called is not visible here; it is given
 * as two oracles: `raises(h)`, the exception calling `h` ends with (for
 * an around hook: after `wrapped` returned, or instead of calling it),
 * and `wraps(h)`, whether the around hook `h` calls `wrapped`.  An around
 * hook lets an exception of `wrapped` propagate.  The formatter's
 * `dsl_*` notifications are the observable trace, `ExampleRunner.events`.
 */
module ExampleExecution {
  import opened Values
  import opened Contexts
  import ObjectModel
  import MockCallable
  import MockConstructor
  import PatchAttribute

  /** A formatter notification: `dsl_around`, `dsl_before` (or `dsl_memoize_before`), `dsl_example`, `dsl_after`. */
  datatype Event = AroundEv(h: Hook) | BeforeEv(h: Hook) | ExampleEv(h: Hook) | AfterEv(h: Hook)

  datatype Outcome = Outcome(trace: seq<Event>, raised: Option<Exc>)

  function BeforeEvents(hs: seq<Hook>): (r: seq<Event>)
    ensures |r| == |hs| && forall k :: 0 <= k < |hs| ==> r[k] == BeforeEv(hs[k])
  {
    seq(|hs|, k requires 0 <= k < |hs| => BeforeEv(hs[k]))
  }

  function AfterEvents(hs: seq<Hook>): (r: seq<Event>)
    ensures |r| == |hs| && forall k :: 0 <= k < |hs| ==> r[k] == AfterEv(hs[k])
  {
    seq(|hs|, k requires 0 <= k < |hs| => AfterEv(hs[k]))
  }

  function AroundEvents(hs: seq<Hook>): (r: seq<Event>)
    ensures |r| == |hs| && forall k :: 0 <= k < |hs| ==> r[k] == AroundEv(hs[k])
  {
    seq(|hs|, k requires 0 <= k < |hs| => AroundEv(hs[k]))
  }

  /** `_fail_if_coroutine_function(h, ...)`: a coroutine function is refused with ValueError, anything else is called. */
  function CallHook(h: Hook, raises: Hook -> Option<Exc>): (r: Option<Exc>)
    ensures IsCoroutine(h) ==> r == Some(Raised(ValueError))
    ensures !IsCoroutine(h) ==> r == raises(h)
  {
    if IsCoroutine(h) then Some(Raised(ValueError)) else raises(h)
  }

  /**
   * The `with aggregated_exceptions.catch():` block: the before hooks in
   * order, then the example; the first exception leaves the block.
   */
  function BeforeBlock(bs: seq<Hook>, example: Hook, raises: Hook -> Option<Exc>): Outcome
    decreases |bs|
  {
    if bs == [] then Outcome([ExampleEv(example)], CallHook(example, raises))
    else
      var e := CallHook(bs[0], raises);
      if e.Some? then Outcome([BeforeEv(bs[0])], e)
      else
        var rest := BeforeBlock(bs[1..], example, raises);
        Outcome([BeforeEv(bs[0])] + rest.trace, rest.raised)
  }

  /** The after loop: each hook in its own `catch()`, so all of them run; failures are appended in turn. */
  function AfterBlock(hs: seq<Hook>, acc: seq<Exc>, raises: Hook -> Option<Exc>): (seq<Event>, seq<Exc>)
    decreases |hs|
  {
    if hs == [] then ([], acc)
    else
      var prev := AfterBlock(hs[..|hs| - 1], acc, raises);
      var e := CallHook(hs[|hs| - 1], raises);
      (prev.0 + [AfterEv(hs[|hs| - 1])], if e.Some? then Appended(prev.1, e.value) else prev.1)
  }

  /** The `after_functions` list: mock-call assertions, the context's inherited after hooks, the example's own. */
  function AfterFunctions(mockAfters: seq<Hook>, contextAfters: seq<Hook>, exampleAfters: seq<Hook>): seq<Hook>
  {
    mockAfters + contextAfters + exampleAfters
  }

  /** The innermost call (no around hook left). */
  function Innermost(bs: seq<Hook>, example: Hook, afters: seq<Hook>, raises: Hook -> Option<Exc>): Outcome
  {
    var b := BeforeBlock(bs, example, raises);
    var acc := if b.raised.Some? then Appended([], b.raised.value) else [];
    var a := AfterBlock(Reverse(afters), acc, raises);
    Outcome(b.trace + a.0, RaiseCorrect(a.1))
  }

  /**
   * `_sync_run_all_hooks_and_example(context_data, around_functions)`:
   * `arounds` is the list the hooks are popped from (its last element
   * first).
   */
  function RunHooks(arounds: seq<Hook>, bs: seq<Hook>, example: Hook, afters: seq<Hook>,
                    raises: Hook -> Option<Exc>, wraps: Hook -> bool): Outcome
    decreases |arounds|
  {
    if arounds == [] then Innermost(bs, example, afters, raises)
    else
      var h := arounds[|arounds| - 1];
      if IsCoroutine(h) then Outcome([AroundEv(h)], Some(Raised(ValueError)))
      else if wraps(h) then
        var inner := RunHooks(arounds[..|arounds| - 1], bs, example, afters, raises, wraps);
        Outcome([AroundEv(h)] + inner.trace, if inner.raised.Some? then inner.raised else raises(h))
      else
        Outcome([AroundEv(h)], if raises(h).Some? then raises(h) else Some(Raised(RuntimeError)))
  }

  // ---------------------------------------------------------------------
  // Properties of the schedule

  /**
   * Around hooks are entered in declaration order: the first one declared
   * (outer contexts first) is outermost and each wraps the rest.
   */
  lemma AroundHooksNestInOrder(hooks: seq<Hook>, bs: seq<Hook>, example: Hook, afters: seq<Hook>,
                                raises: Hook -> Option<Exc>, wraps: Hook -> bool)
    requires forall k :: 0 <= k < |hooks| ==> !IsCoroutine(hooks[k]) && wraps(hooks[k]) && raises(hooks[k]).None?
    ensures var inner := Innermost(bs, example, afters, raises);
      RunHooks(Reverse(hooks), bs, example, afters, raises, wraps) == Outcome(AroundEvents(hooks) + inner.trace, inner.raised)
  {
    var rev := Reverse(hooks);
    WrappersNest(rev, bs, example, afters, raises, wraps);
    var r := RunHooks(rev, bs, example, afters, raises, wraps);
    var inner := Innermost(bs, example, afters, raises);
    NestedTrace(hooks, rev, r.trace, inner.trace);
  }

  /** A trace whose first entries are the reversed list's around hooks read back to front. */
  lemma NestedTrace(hooks: seq<Hook>, rev: seq<Hook>, trace: seq<Event>, rest: seq<Event>)
    requires rev == Reverse(hooks)
    requires |trace| == |rev| + |rest| && trace[|rev|..] == rest
    requires forall k :: 0 <= k < |rev| ==> trace[k] == AroundEv(rev[|rev| - 1 - k])
    ensures trace == AroundEvents(hooks) + rest
  {
    assert trace == trace[..|hooks|] + trace[|hooks|..];
    assert forall k :: 0 <= k < |hooks| ==> rev[|hooks| - 1 - k] == hooks[k];
  }

  /** Around hooks that all call `wrapped`: the one popped first is outermost, and so on inwards. */
  lemma {:induction false} WrappersNest(arounds: seq<Hook>, bs: seq<Hook>, example: Hook, afters: seq<Hook>,
                                        raises: Hook -> Option<Exc>, wraps: Hook -> bool)
    requires forall k :: 0 <= k < |arounds| ==> !IsCoroutine(arounds[k]) && wraps(arounds[k]) && raises(arounds[k]).None?
    ensures var inner := Innermost(bs, example, afters, raises);
      var r := RunHooks(arounds, bs, example, afters, raises, wraps);
      && r.raised == inner.raised && |r.trace| == |arounds| + |inner.trace|
      && (forall k :: 0 <= k < |arounds| ==> r.trace[k] == AroundEv(arounds[|arounds| - 1 - k]))
      && r.trace[|arounds|..] == inner.trace
    decreases |arounds|
  {
    if arounds != [] {
      var front := arounds[..|arounds| - 1];
      WrappersNest(front, bs, example, afters, raises, wraps);
      WrappingHookStep(arounds, bs, example, afters, raises, wraps);
      var r := RunHooks(arounds, bs, example, afters, raises, wraps);
      var rf := RunHooks(front, bs, example, afters, raises, wraps);
      assert r.trace == [AroundEv(arounds[|arounds| - 1])] + rf.trace;
      assert forall k :: 1 <= k < |arounds| ==> r.trace[k] == rf.trace[k - 1];
      assert r.trace[|arounds|..] == rf.trace[|front|..];
    }
  }

  /** The hook popped last wraps the run of the remaining ones. */
  lemma WrappingHookStep(arounds: seq<Hook>, bs: seq<Hook>, example: Hook, afters: seq<Hook>,
                         raises: Hook -> Option<Exc>, wraps: Hook -> bool)
    requires arounds != []
    requires var h := arounds[|arounds| - 1]; !IsCoroutine(h) && wraps(h) && raises(h).None?
    ensures var inner := RunHooks(arounds[..|arounds| - 1], bs, example, afters, raises, wraps);
      RunHooks(arounds, bs, example, afters, raises, wraps) == Outcome([AroundEv(arounds[|arounds| - 1])] + inner.trace, inner.raised)
  {
  }

  /** An around hook that neither calls `wrapped` nor raises ends the example with RuntimeError; nothing inside it runs. */
  lemma UnwrappedAroundFails(hooks: seq<Hook>, bs: seq<Hook>, example: Hook, afters: seq<Hook>,
                             raises: Hook -> Option<Exc>, wraps: Hook -> bool)
    requires |hooks| > 0 && !IsCoroutine(hooks[0]) && !wraps(hooks[0]) && raises(hooks[0]).None?
    ensures RunHooks(Reverse(hooks), bs, example, afters, raises, wraps) ==
      Outcome([AroundEv(hooks[0])], Some(Raised(RuntimeError)))
  {
    assert Reverse(hooks) == Reverse(hooks[1..]) + [hooks[0]];
  }

  /** The first before hook that fails ends the block: the later ones and the example do not run. */
  lemma {:induction false} FirstBeforeFailureStops(bs: seq<Hook>, k: nat, example: Hook, raises: Hook -> Option<Exc>)
    requires k < |bs| && CallHook(bs[k], raises).Some?
    requires forall j :: 0 <= j < k ==> CallHook(bs[j], raises).None?
    ensures BeforeBlock(bs, example, raises) == Outcome(BeforeEvents(bs[..k + 1]), CallHook(bs[k], raises))
    decreases k
  {
    if k > 0 {
      assert bs[1..][k - 1] == bs[k];
      FirstBeforeFailureStops(bs[1..], k - 1, example, raises);
      assert bs[1..][..k] == bs[1..k + 1];
      assert BeforeEvents(bs[..k + 1]) == [BeforeEv(bs[0])] + BeforeEvents(bs[1..k + 1]);
    } else {
      assert BeforeEvents(bs[..1]) == [BeforeEv(bs[0])];
    }
  }

  /** When every before hook succeeds, all of them run in order, then the example. */
  lemma {:induction false} BeforesThenExample(bs: seq<Hook>, example: Hook, raises: Hook -> Option<Exc>)
    requires forall j :: 0 <= j < |bs| ==> CallHook(bs[j], raises).None?
    ensures BeforeBlock(bs, example, raises) == Outcome(BeforeEvents(bs) + [ExampleEv(example)], CallHook(example, raises))
    decreases |bs|
  {
    if bs != [] {
      BeforesThenExample(bs[1..], example, raises);
      assert BeforeEvents(bs) == [BeforeEv(bs[0])] + BeforeEvents(bs[1..]);
    }
  }

  /** Every after hook runs, in list order, whatever the others raise; the earlier failures stay first. */
  lemma {:induction false} EveryAfterHookRuns(hs: seq<Hook>, acc: seq<Exc>, raises: Hook -> Option<Exc>)
    ensures AfterBlock(hs, acc, raises).0 == AfterEvents(hs)
    ensures |AfterBlock(hs, acc, raises).1| >= |acc| && AfterBlock(hs, acc, raises).1[..|acc|] == acc
    ensures (forall k :: 0 <= k < |hs| ==> CallHook(hs[k], raises).None?) ==> AfterBlock(hs, acc, raises).1 == acc
    decreases |hs|
  {
    if hs != [] {
      var init := hs[..|hs| - 1];
      EveryAfterHookRuns(init, acc, raises);
      assert AfterEvents(hs) == AfterEvents(init) + [AfterEv(hs[|hs| - 1])];
      var prev := AfterBlock(init, acc, raises).1;
      assert (prev + [])[..|acc|] == acc;
      if CallHook(hs[|hs| - 1], raises).Some? {
        var e := CallHook(hs[|hs| - 1], raises).value;
        assert Appended(prev, e)[..|prev|] == prev;
        assert Appended(prev, e)[..|acc|] == prev[..|acc|];
      }
    }
  }

  lemma {:induction false} ReverseConcat<T>(a: seq<T>, b: seq<T>)
    ensures Reverse(a + b) == Reverse(b) + Reverse(a)
    decreases |a|
  {
    if a != [] {
      assert (a + b)[1..] == a[1..] + b;
      ReverseConcat(a[1..], b);
    } else {
      assert a + b == b;
    }
  }

  lemma AfterEventsConcat(a: seq<Hook>, b: seq<Hook>)
    ensures AfterEvents(a + b) == AfterEvents(a) + AfterEvents(b)
  {
  }

  /**
   * The after list runs reversed: the example's own after hooks first,
   * then the context's, and the mock-call assertions last.
   */
  lemma MockAssertionsRunLast(mockAfters: seq<Hook>, contextAfters: seq<Hook>, exampleAfters: seq<Hook>,
                              acc: seq<Exc>, raises: Hook -> Option<Exc>)
    ensures AfterBlock(Reverse(AfterFunctions(mockAfters, contextAfters, exampleAfters)), acc, raises).0 ==
      AfterEvents(Reverse(exampleAfters)) + AfterEvents(Reverse(contextAfters)) + AfterEvents(Reverse(mockAfters))
  {
    var x, y, z := Reverse(exampleAfters), Reverse(contextAfters), Reverse(mockAfters);
    ReversedAfterFunctions(mockAfters, contextAfters, exampleAfters);
    EveryAfterHookRuns(x + y + z, acc, raises);
    AfterEventsConcat(x + y, z);
    AfterEventsConcat(x, y);
  }

  /** Reversing the after list puts the example's hooks first and the mock-call assertions last. */
  lemma ReversedAfterFunctions(mockAfters: seq<Hook>, contextAfters: seq<Hook>, exampleAfters: seq<Hook>)
    ensures Reverse(AfterFunctions(mockAfters, contextAfters, exampleAfters)) ==
      Reverse(exampleAfters) + Reverse(contextAfters) + Reverse(mockAfters)
  {
    ReverseConcat(mockAfters + contextAfters, exampleAfters);
    ReverseConcat(mockAfters, contextAfters);
    assert Reverse(exampleAfters) + (Reverse(contextAfters) + Reverse(mockAfters)) ==
      Reverse(exampleAfters) + Reverse(contextAfters) + Reverse(mockAfters);
  }

  /** With no around hook and nothing failing, the example passes. */
  lemma CleanRunPasses(bs: seq<Hook>, example: Hook, afters: seq<Hook>, raises: Hook -> Option<Exc>)
    requires forall j :: 0 <= j < |bs| ==> CallHook(bs[j], raises).None?
    requires CallHook(example, raises).None?
    requires forall j :: 0 <= j < |afters| ==> CallHook(afters[j], raises).None?
    ensures Innermost(bs, example, afters, raises) ==
      Outcome(BeforeEvents(bs) + [ExampleEv(example)] + AfterEvents(Reverse(afters)), None)
  {
    BeforesThenExample(bs, example, raises);
    EveryAfterHookRuns(Reverse(afters), [], raises);
  }

  /** A single failure (not a skip) is re-raised as it is, and the after hooks still all run. */
  lemma SingleFailureReraised(bs: seq<Hook>, example: Hook, afters: seq<Hook>, raises: Hook -> Option<Exc>, kind: ExcKind)
    requires forall j :: 0 <= j < |bs| ==> CallHook(bs[j], raises).None?
    requires CallHook(example, raises) == Some(Raised(kind)) && kind != Skip && kind != SkipTest
    requires forall j :: 0 <= j < |afters| ==> CallHook(afters[j], raises).None?
    ensures Innermost(bs, example, afters, raises) ==
      Outcome(BeforeEvents(bs) + [ExampleEv(example)] + AfterEvents(Reverse(afters)), Some(Raised(kind)))
  {
    BeforesThenExample(bs, example, raises);
    EveryAfterHookRuns(Reverse(afters), [Raised(kind)], raises);
  }

  // ---------------------------------------------------------------------
  // The teardown in `run`'s `finally`

  /** The three registries the teardown drains, and the heap they patch. */
  datatype World = World(
    heap: ObjectModel.Heap,
    mocks: map<MockCallable.Key, MockCallable.CallableMock>,
    cleanups: seq<MockCallable.Cleanup>,
    mocked: map<MockConstructor.Key, (Value, Value)>,
    ctorUnpatchers: seq<MockConstructor.ClassRestore>,
    tables: PatchAttribute.Tables)

  /**
   * The `finally` as written: three calls in a row, so an exception from
   * `unpatch_all_callable_mocks` skips the other two, and one from
   * `unpatch_all_constructor_mocks` skips the last.
   */
  function TeardownAsWritten(w: World): (r: (World, Option<ExcKind>))
    requires PatchAttribute.TablesOk(w.tables)
    ensures r.1 == TeardownAll(w).1
    ensures r.0.cleanups == [] && r.0.mocks == TeardownAll(w).0.mocks
  {
    var (h1, m1, e1) := MockCallable.RunCleanups(w.heap, w.mocks, w.cleanups);
    var w1 := w.(heap := h1, mocks := m1, cleanups := []);
    if e1.Some? then (w1, e1)
    else
      var (s2, e2) := MockConstructor.UnpatchAllSpec(h1, w.mocked, w.ctorUnpatchers);
      var w2 := w1.(heap := s2.heap, mocked := s2.mocked, ctorUnpatchers := s2.unpatchers);
      if e2.Some? then (w2, e2)
      else
        var s3 := PatchAttribute.UnpatchAllSpec(s2.heap, w.tables);
        (w2.(heap := s3.heap, tables := s3.tables), s3.err)
  }

  /** The teardown every example needs: all three run; the first exception is reported. */
  function TeardownAll(w: World): (World, Option<ExcKind>)
    requires PatchAttribute.TablesOk(w.tables)
  {
    var (h1, m1, e1) := MockCallable.RunCleanups(w.heap, w.mocks, w.cleanups);
    var (s2, e2) := MockConstructor.UnpatchAllSpec(h1, w.mocked, w.ctorUnpatchers);
    var s3 := PatchAttribute.UnpatchAllSpec(s2.heap, w.tables);
    (World(s3.heap, m1, [], s2.mocked, s2.unpatchers, s3.tables),
     if e1.Some? then e1 else if e2.Some? then e2 else s3.err)
  }

  lemma {:induction false} ConstructorUnpatchEmpties(h: ObjectModel.Heap, mocked: map<MockConstructor.Key, (Value, Value)>,
                                                    us: seq<MockConstructor.ClassRestore>)
    ensures MockConstructor.UnpatchAllSpec(h, mocked, us).0.unpatchers == []
    decreases |us|
  {
    if us != [] {
      var u := us[0];
      var r := ObjectModel.SetAttr(h, u.target, u.className, u.original);
      if r.Ok? {
        ConstructorUnpatchEmpties(r.value, mocked - {(u.target, u.className)}, us[1..]);
      }
    }
  }

  /**
   * As written, when a callable-mock cleanup raises, the constructor
   * mocks and the patched attributes stay registered and in place.
   */
  lemma TeardownAsWrittenStrandsPatches(w: World)
    requires PatchAttribute.TablesOk(w.tables)
    requires MockCallable.RunCleanups(w.heap, w.mocks, w.cleanups).2.Some?
    ensures var (r, err) := TeardownAsWritten(w);
      err.Some? && r.ctorUnpatchers == w.ctorUnpatchers && r.mocked == w.mocked && r.tables == w.tables
      && r.heap == MockCallable.RunCleanups(w.heap, w.mocks, w.cleanups).0
  {
  }

  /** With every cleanup run, all three registries end empty, and an exception is reported iff one was raised. */
  lemma TeardownAllEmpties(w: World)
    requires PatchAttribute.TablesOk(w.tables)
    ensures var (r, err) := TeardownAll(w);
      r.cleanups == [] && r.ctorUnpatchers == [] && r.tables == PatchAttribute.EmptyTables
      && (err.None? <==>
            (MockCallable.RunCleanups(w.heap, w.mocks, w.cleanups).2.None?
             && MockConstructor.UnpatchAllSpec(MockCallable.RunCleanups(w.heap, w.mocks, w.cleanups).0, w.mocked, w.ctorUnpatchers).1.None?
             && PatchAttribute.UnpatchAllSpec(MockConstructor.UnpatchAllSpec(MockCallable.RunCleanups(w.heap, w.mocks, w.cleanups).0, w.mocked, w.ctorUnpatchers).0.heap, w.tables).err.None?))
  {
    var h1 := MockCallable.RunCleanups(w.heap, w.mocks, w.cleanups).0;
    ConstructorUnpatchEmpties(h1, w.mocked, w.ctorUnpatchers);
  }

  /** When nothing raises, the two teardowns agree. */
  lemma TeardownsAgreeWithoutErrors(w: World)
    requires PatchAttribute.TablesOk(w.tables)
    requires TeardownAll(w).1.None?
    ensures TeardownAsWritten(w) == TeardownAll(w)
  {
  }

  // ---------------------------------------------------------------------
  // The runner

  class ExampleRunner {
    /** The formatter notifications so far. */
    var events: seq<Event>

    constructor ()
      ensures events == []
    {
      events := [];
    }

    /** `_fail_if_coroutine_function(h, ...)`. */
    static method FailIfCoroutine(h: Hook, raises: Hook -> Option<Exc>) returns (r: Option<Exc>)
      ensures r == CallHook(h, raises)
    {
      if IsCoroutine(h) {
        return Some(Raised(ValueError));
      }
      r := raises(h);
    }

    /** `_sync_run_all_hooks_and_example(context_data, around_functions)`. */
    method RunAllHooks(arounds: seq<Hook>, bs: seq<Hook>, example: Hook, afters: seq<Hook>,
                       raises: Hook -> Option<Exc>, wraps: Hook -> bool) returns (raised: Option<Exc>)
      modifies this
      ensures events == old(events) + RunHooks(arounds, bs, example, afters, raises, wraps).trace
      ensures raised == RunHooks(arounds, bs, example, afters, raises, wraps).raised
      decreases |arounds|
    {
      if arounds == [] {
        raised := RunInnermost(bs, example, afters, raises);
        return;
      }
      var aroundCode := arounds[|arounds| - 1];
      var rest := arounds[..|arounds| - 1];
      events := events + [AroundEv(aroundCode)];
      var e := FailIfCoroutine(aroundCode, raises);
      if IsCoroutine(aroundCode) {
        return e;
      }
      var wrappedCalled := wraps(aroundCode);
      if wrappedCalled {
        var inner := RunAllHooks(rest, bs, example, afters, raises, wraps);
        if inner.Some? {
          return inner;
        }
        return e;
      }
      if e.Some? {
        return e;
      }
      raised := Some(Raised(RuntimeError));
    }

    /** The branch of `_sync_run_all_hooks_and_example` without around hooks. */
    method RunInnermost(bs: seq<Hook>, example: Hook, afters: seq<Hook>, raises: Hook -> Option<Exc>)
      returns (raised: Option<Exc>)
      modifies this
      ensures events == old(events) + Innermost(bs, example, afters, raises).trace
      ensures raised == Innermost(bs, example, afters, raises).raised
    {
      var aggregated := new AggregatedExceptions();
      var caught := RunBeforeBlock(bs, example, raises);
      aggregated.Catch(caught);
      RunAfterHooks(Reverse(afters), aggregated, raises);
      raised := aggregated.RaiseCorrectException();
    }

    /** The before hooks and the example inside one `catch()`: the exception that left the block, if any. */
    method RunBeforeBlock(bs: seq<Hook>, example: Hook, raises: Hook -> Option<Exc>) returns (caught: Option<Exc>)
      modifies this
      ensures events == old(events) + BeforeBlock(bs, example, raises).trace
      ensures caught == BeforeBlock(bs, example, raises).raised
    {
      caught := None;
      var i := 0;
      while i < |bs|
        invariant 0 <= i <= |bs|
        invariant forall j :: 0 <= j < i ==> CallHook(bs[j], raises).None?
        invariant events == old(events) + BeforeEvents(bs[..i])
      {
        assert BeforeEvents(bs[..i + 1]) == BeforeEvents(bs[..i]) + [BeforeEv(bs[i])];
        events := events + [BeforeEv(bs[i])];
        var e := FailIfCoroutine(bs[i], raises);
        if e.Some? {
          FirstBeforeFailureStops(bs, i, example, raises);
          return e;
        }
        i := i + 1;
      }
      assert bs[..|bs|] == bs;
      BeforesThenExample(bs, example, raises);
      events := events + [ExampleEv(example)];
      caught := FailIfCoroutine(example, raises);
    }

    /** `for after_code in reversed(after_functions): with catch(): ...`, over the already reversed list `hs`. */
    method RunAfterHooks(hs: seq<Hook>, aggregated: AggregatedExceptions, raises: Hook -> Option<Exc>)
      modifies this, aggregated
      ensures events == old(events) + AfterBlock(hs, old(aggregated.exceptions), raises).0
      ensures aggregated.exceptions == AfterBlock(hs, old(aggregated.exceptions), raises).1
    {
      for k := 0 to |hs|
        invariant events == old(events) + AfterBlock(hs[..k], old(aggregated.exceptions), raises).0
        invariant aggregated.exceptions == AfterBlock(hs[..k], old(aggregated.exceptions), raises).1
      {
        assert hs[..k + 1][..k] == hs[..k];
        events := events + [AfterEv(hs[k])];
        var e := FailIfCoroutine(hs[k], raises);
        aggregated.Catch(e);
      }
      assert hs[..|hs|] == hs;
    }

    /**
     * `unpatch_all_callable_mocks()`, `unpatch_all_constructor_mocks()`,
     * `unpatch_all_mocked_attributes()`, each one run whatever the
     * previous one raised.
     */
    static method UnpatchEverything(callables: MockCallable.Registry, ctors: MockConstructor.ConstructorMocks,
                                    attrs: PatchAttribute.AttributePatcher, space: ObjectModel.ObjectSpace)
      returns (err: Option<ExcKind>)
      requires attrs.Valid()
      modifies callables, ctors, attrs, space
      ensures attrs.Valid()
      ensures var (w, e) := TeardownAll(old(World(space.heap, callables.mocks, callables.cleanups,
                                                  ctors.mocked, ctors.unpatchers, attrs.State())));
        w == World(space.heap, callables.mocks, callables.cleanups, ctors.mocked, ctors.unpatchers, attrs.State())
        && err == e
    {
      var e1 := callables.UnpatchAll(space);
      var e2 := ctors.UnpatchAll(space);
      var e3 := attrs.UnpatchAll(space);
      err := if e1.Some? then e1 else if e2.Some? then e2 else e3;
    }

    /**
     * `run()` for a synchronous example: a skipped example raises Skip
     * without running any hook; otherwise the hooks of its context and
     * the example run.  Every registry is drained afterwards, and an
     * exception of the teardown replaces the example's outcome.
     */
    method Run(nodes: seq<ContextNode>, ex: Example, mockAfters: seq<Hook>, exampleAfters: seq<Hook>,
               raises: Hook -> Option<Exc>, wraps: Hook -> bool,
               callables: MockCallable.Registry, ctors: MockConstructor.ConstructorMocks,
               attrs: PatchAttribute.AttributePatcher, space: ObjectModel.ObjectSpace)
      returns (raised: Option<Exc>)
      requires WellFormed(nodes) && ex.context < |nodes| && !IsCoroutine(ex.code)
      requires attrs.Valid()
      modifies this, callables, ctors, attrs, space
      ensures attrs.Valid()
      ensures ExampleSkipped(nodes, ex) ==> events == old(events)
      ensures !ExampleSkipped(nodes, ex) ==>
        events == old(events) + RunHooks(Reverse(AllHooks(nodes, ex.context, AroundList)), AllHooks(nodes, ex.context, BeforeList),
                                         ex.code, AfterFunctions(mockAfters, AllHooks(nodes, ex.context, AfterList), exampleAfters),
                                         raises, wraps).trace
      ensures var (w, e) := TeardownAll(old(World(space.heap, callables.mocks, callables.cleanups,
                                                  ctors.mocked, ctors.unpatchers, attrs.State())));
        w == World(space.heap, callables.mocks, callables.cleanups, ctors.mocked, ctors.unpatchers, attrs.State())
        && (e.Some? ==> raised == Some(Raised(e.value)))
        && (e.None? && ExampleSkipped(nodes, ex) ==> raised == Some(Raised(Skip)))
        && (e.None? && !ExampleSkipped(nodes, ex) ==>
              raised == RunHooks(Reverse(AllHooks(nodes, ex.context, AroundList)), AllHooks(nodes, ex.context, BeforeList),
                                 ex.code, AfterFunctions(mockAfters, AllHooks(nodes, ex.context, AfterList), exampleAfters),
                                 raises, wraps).raised)
    {
      var body: Option<Exc>;
      if ExampleSkipped(nodes, ex) {
        body := Some(Raised(Skip));
      } else {
        var arounds := Reverse(AllHooks(nodes, ex.context, AroundList));
        var afters := AfterFunctions(mockAfters, AllHooks(nodes, ex.context, AfterList), exampleAfters);
        body := RunAllHooks(arounds, AllHooks(nodes, ex.context, BeforeList), ex.code, afters, raises, wraps);
      }
      var e := UnpatchEverything(callables, ctors, attrs, space);
      raised := if e.Some? then Some(Raised(e.value)) else body;
    }
  }
}
