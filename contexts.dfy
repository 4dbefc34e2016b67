/**
 * The test tree of testslide/bdd/lib.py: `Context`, `Example`,
 * `AggregatedExceptions`, the write guard of `_ContextData` and `reset`.
 *
 * Context objects point to their parent and list their children; here
 * they live in one arena, `ContextTree.nodes`, and refer to each other by
 * index.  A context is created after its parent, so a parent's index is
 * smaller than its children's, which is what the recursive queries
 * decrease on.  `Context.all_top_level_contexts`, a class-level list, is
 * `ContextTree.topLevel`.  User callables (hooks, example code, context
 * functions) are opaque `Hook` values; whether one is a coroutine
 * function is part of the value.
 */
module Contexts {
  import opened Values

  /** A callable stored in the tree. */
  datatype Hook =
    | Code(id: nat, coroutine: bool)
      /** The `materialize_attribute` hook that `memoize_before` adds. */
    | Materialize(attr: Name, code: nat, coroutine: bool)
      /** The around hook that `add_test_case` adds. */
    | WrapTestCase(testCase: nat, attrName: Name)

  predicate IsCoroutine(h: Hook)
  {
    (h.Code? || h.Materialize?) && h.coroutine
  }

  /** `Example(name, code, context, skip, focus)`; `context` is the index of its context. */
  datatype Example = Example(name: string, code: Hook, context: nat, skipFlag: bool, focusFlag: bool)

  datatype ContextNode = ContextNode(
    name: string,
    parent: Option<nat>,
    isShared: bool,
    skipFlag: bool,
    focusFlag: bool,
    children: seq<nat>,
    examples: seq<Example>,
    before: seq<Hook>,
    after: seq<Hook>,
    around: seq<Hook>,
    methods: map<Name, Hook>,
    memoized: map<Name, Hook>,
    sharedContexts: map<Name, Hook>)

  function NewNode(name: string, parent: Option<nat>, isShared: bool, skip: bool, focus: bool): ContextNode
  {
    ContextNode(name, parent, isShared, skip, focus, [], [], [], [], [], map[], map[], map[])
  }

  /**
   * The links of the object graph: a parent comes before its children, a
   * child lists its parent, and an example points to the context that
   * holds it.
   */
  predicate WellFormed(nodes: seq<ContextNode>)
  {
    (forall i :: 0 <= i < |nodes| && nodes[i].parent.Some? ==> nodes[i].parent.value < i)
    && (forall i, j :: 0 <= i < |nodes| && 0 <= j < |nodes[i].children| ==>
          i < nodes[i].children[j] < |nodes| && nodes[nodes[i].children[j]].parent == Some(i))
    && (forall i, k :: 0 <= i < |nodes| && 0 <= k < |nodes[i].examples| ==> nodes[i].examples[k].context == i)
  }

  predicate InRange(nodes: seq<ContextNode>, cs: seq<nat>)
  {
    forall k :: 0 <= k < |cs| ==> cs[k] < |nodes|
  }

  /** `[context.name for context in cs]`. */
  function NamesOf(nodes: seq<ContextNode>, cs: seq<nat>): seq<string>
    requires InRange(nodes, cs)
  {
    seq(|cs|, k requires 0 <= k < |cs| => nodes[cs[k]].name)
  }

  function ExampleNames(es: seq<Example>): seq<string>
  {
    seq(|es|, k requires 0 <= k < |es| => es[k].name)
  }

  predicate Distinct(s: seq<string>)
  {
    forall a, b :: 0 <= a < b < |s| ==> s[a] != s[b]
  }

  // ---------------------------------------------------------------------
  // Queries

  /** `parent_contexts`: the parent, its parent, and so on up to a top-level context. */
  function Ancestors(nodes: seq<ContextNode>, i: nat): (r: seq<nat>)
    requires WellFormed(nodes) && i < |nodes|
    ensures forall k :: 0 <= k < |r| ==> r[k] < i
    decreases i
  {
    match nodes[i].parent
    case None => []
    case Some(p) => [p] + Ancestors(nodes, p)
  }

  /** `depth`. */
  function Depth(nodes: seq<ContextNode>, i: nat): nat
    requires WellFormed(nodes) && i < |nodes|
  {
    |Ancestors(nodes, i)|
  }

  /** `hierarchy`: the ancestors from the top down, then the context itself. */
  function Hierarchy(nodes: seq<ContextNode>, i: nat): (r: seq<nat>)
    requires WellFormed(nodes) && i < |nodes|
    ensures forall k :: 0 <= k < |r| ==> r[k] <= i
  {
    Reverse(Ancestors(nodes, i)) + [i]
  }

  function Join(names: seq<string>, sep: string): string
  {
    if |names| == 0 then ""
    else if |names| == 1 then names[0]
    else names[0] + sep + Join(names[1..], sep)
  }

  /** `full_name`: the names along the hierarchy joined with ", ". */
  function FullName(nodes: seq<ContextNode>, i: nat): string
    requires WellFormed(nodes) && i < |nodes|
  {
    Join(NamesOf(nodes, Hierarchy(nodes, i)), ", ")
  }

  /** `Context.skip`: the flag of some context of the hierarchy is set. */
  predicate Skipped(nodes: seq<ContextNode>, i: nat)
    requires WellFormed(nodes) && i < |nodes|
  {
    var h := Hierarchy(nodes, i);
    exists k :: 0 <= k < |h| && nodes[h[k]].skipFlag
  }

  /** `Context.focus`. */
  predicate Focused(nodes: seq<ContextNode>, i: nat)
    requires WellFormed(nodes) && i < |nodes|
  {
    var h := Hierarchy(nodes, i);
    exists k :: 0 <= k < |h| && nodes[h[k]].focusFlag
  }

  /** `Example.skip`: its context's `skip` or its own flag. */
  predicate ExampleSkipped(nodes: seq<ContextNode>, e: Example)
    requires WellFormed(nodes) && e.context < |nodes|
  {
    Skipped(nodes, e.context) || e.skipFlag
  }

  /** `Example.focus`. */
  predicate ExampleFocused(nodes: seq<ContextNode>, e: Example)
    requires WellFormed(nodes) && e.context < |nodes|
  {
    Focused(nodes, e.context) || e.focusFlag
  }

  /** `Example.full_name`. */
  function ExampleFullName(nodes: seq<ContextNode>, e: Example): string
    requires WellFormed(nodes) && e.context < |nodes|
  {
    FullName(nodes, e.context) + ": " + e.name
  }

  datatype HookList = BeforeList | AfterList | AroundList

  function OwnHooks(n: ContextNode, which: HookList): seq<Hook>
  {
    match which
    case BeforeList => n.before
    case AfterList => n.after
    case AroundList => n.around
  }

  /** `all_before_functions`, `all_after_functions`, `all_around_functions` (`_all_parents_as_list`). */
  function AllHooks(nodes: seq<ContextNode>, i: nat, which: HookList): seq<Hook>
    requires WellFormed(nodes) && i < |nodes|
    decreases i
  {
    (if nodes[i].parent.Some? then AllHooks(nodes, nodes[i].parent.value, which) else [])
      + OwnHooks(nodes[i], which)
  }

  datatype HookDict = MethodsDict | MemoizedDict | SharedDict

  function OwnDict(n: ContextNode, which: HookDict): map<Name, Hook>
  {
    match which
    case MethodsDict => n.methods
    case MemoizedDict => n.memoized
    case SharedDict => n.sharedContexts
  }

  /** `all_context_data_methods`, `all_context_data_memoizable_attributes`, `all_shared_contexts` (`_all_parents_as_dict`). */
  function AllDict(nodes: seq<ContextNode>, i: nat, which: HookDict): map<Name, Hook>
    requires WellFormed(nodes) && i < |nodes|
    decreases i
  {
    (if nodes[i].parent.Some? then AllDict(nodes, nodes[i].parent.value, which) else map[])
      + OwnDict(nodes[i], which)
  }

  /** `all_examples`: the context's own examples, then each child's `all_examples` in order. */
  function AllExamplesOf(nodes: seq<ContextNode>, i: nat): seq<Example>
    requires WellFormed(nodes) && i < |nodes|
    decreases |nodes| - i, 1, 0
  {
    nodes[i].examples + ChildExamples(nodes, i, nodes[i].children)
  }

  function ChildExamples(nodes: seq<ContextNode>, i: nat, cs: seq<nat>): seq<Example>
    requires WellFormed(nodes) && i < |nodes|
    requires forall k :: 0 <= k < |cs| ==> i < cs[k] < |nodes|
    decreases |nodes| - i, 0, |cs|
  {
    if cs == [] then []
    else ChildExamples(nodes, i, cs[..|cs| - 1]) + AllExamplesOf(nodes, cs[|cs| - 1])
  }

  /** `has_attribute`. */
  predicate HasAttribute(n: ContextNode, name: Name)
  {
    name in n.methods || name in n.memoized
  }

  // ---------------------------------------------------------------------
  // Properties of the queries

  /** `parent_contexts` walks up one parent at a time and stops at a top-level context. */
  lemma {:induction false} AncestorsAreTheParentChain(nodes: seq<ContextNode>, i: nat)
    requires WellFormed(nodes) && i < |nodes|
    ensures var r := Ancestors(nodes, i);
      (|r| == 0 <==> nodes[i].parent.None?)
      && (|r| > 0 ==> nodes[i].parent == Some(r[0]) && nodes[r[|r| - 1]].parent.None?)
      && (forall k :: 0 <= k < |r| - 1 ==> nodes[r[k]].parent == Some(r[k + 1]))
    decreases i
  {
    match nodes[i].parent {
      case None =>
      case Some(p) =>
        AncestorsAreTheParentChain(nodes, p);
        var r := Ancestors(nodes, i);
        var rp := Ancestors(nodes, p);
        assert r == [p] + rp;
        forall k | 0 <= k < |r| - 1
          ensures nodes[r[k]].parent == Some(r[k + 1])
        {
          if k > 0 {
            assert r[k] == rp[k - 1] && r[k + 1] == rp[k];
          }
        }
    }
  }

  /** A child's hierarchy is its parent's followed by the child. */
  lemma HierarchyOfChild(nodes: seq<ContextNode>, c: nat, p: nat)
    requires WellFormed(nodes) && c < |nodes| && nodes[c].parent == Some(p)
    ensures Hierarchy(nodes, c) == Hierarchy(nodes, p) + [c]
    ensures Depth(nodes, c) == Depth(nodes, p) + 1
  {
    var a := Ancestors(nodes, p);
    assert Ancestors(nodes, c) == [p] + a;
    assert ([p] + a)[1..] == a;
    assert Reverse([p] + a) == Reverse(a) + [p];
  }

  /** A top-level context's hierarchy is itself alone. */
  lemma HierarchyOfRoot(nodes: seq<ContextNode>, i: nat)
    requires WellFormed(nodes) && i < |nodes| && nodes[i].parent.None?
    ensures Hierarchy(nodes, i) == [i]
    ensures FullName(nodes, i) == nodes[i].name
  {
  }

  lemma {:induction false} JoinSnoc(names: seq<string>, last: string, sep: string)
    requires |names| > 0
    ensures Join(names + [last], sep) == Join(names, sep) + sep + last
    decreases |names|
  {
    if |names| == 1 {
      assert (names + [last])[1..] == [last];
    } else {
      assert (names + [last])[1..] == names[1..] + [last];
      JoinSnoc(names[1..], last, sep);
    }
  }

  /** `full_name` of a child: the parent's full name, ", ", the child's name. */
  lemma FullNameOfChild(nodes: seq<ContextNode>, c: nat, p: nat)
    requires WellFormed(nodes) && c < |nodes| && nodes[c].parent == Some(p)
    ensures FullName(nodes, c) == FullName(nodes, p) + ", " + nodes[c].name
  {
    HierarchyOfChild(nodes, c, p);
    var hp := Hierarchy(nodes, p);
    assert NamesOf(nodes, hp + [c]) == NamesOf(nodes, hp) + [nodes[c].name];
    JoinSnoc(NamesOf(nodes, hp), nodes[c].name, ", ");
  }

  /** A context is skipped iff it is flagged or its parent is skipped. */
  lemma SkipInherited(nodes: seq<ContextNode>, c: nat, p: nat)
    requires WellFormed(nodes) && c < |nodes| && nodes[c].parent == Some(p)
    ensures Skipped(nodes, c) <==> nodes[c].skipFlag || Skipped(nodes, p)
  {
    HierarchyOfChild(nodes, c, p);
    var hp := Hierarchy(nodes, p);
    var hc := Hierarchy(nodes, c);
    assert hc[|hp|] == c;
    if Skipped(nodes, p) {
      var k :| 0 <= k < |hp| && nodes[hp[k]].skipFlag;
      assert hc[k] == hp[k];
    }
    if Skipped(nodes, c) && !nodes[c].skipFlag {
      var k :| 0 <= k < |hc| && nodes[hc[k]].skipFlag;
      assert k < |hp| && hp[k] == hc[k];
    }
  }

  /** A context is focused iff it is flagged or its parent is focused. */
  lemma FocusInherited(nodes: seq<ContextNode>, c: nat, p: nat)
    requires WellFormed(nodes) && c < |nodes| && nodes[c].parent == Some(p)
    ensures Focused(nodes, c) <==> nodes[c].focusFlag || Focused(nodes, p)
  {
    HierarchyOfChild(nodes, c, p);
    var hp := Hierarchy(nodes, p);
    var hc := Hierarchy(nodes, c);
    assert hc[|hp|] == c;
    if Focused(nodes, p) {
      var k :| 0 <= k < |hp| && nodes[hp[k]].focusFlag;
      assert hc[k] == hp[k];
    }
    if Focused(nodes, c) && !nodes[c].focusFlag {
      var k :| 0 <= k < |hc| && nodes[hc[k]].focusFlag;
      assert k < |hp| && hp[k] == hc[k];
    }
  }

  /** The own lists of the contexts of `h`, concatenated in order. */
  function ConcatOwn(nodes: seq<ContextNode>, h: seq<nat>, which: HookList): seq<Hook>
    requires InRange(nodes, h)
  {
    if h == [] then [] else ConcatOwn(nodes, h[..|h| - 1], which) + OwnHooks(nodes[h[|h| - 1]], which)
  }

  /** An inherited list is the own lists along the hierarchy, outermost context first. */
  lemma {:induction false} AllHooksAlongHierarchy(nodes: seq<ContextNode>, i: nat, which: HookList)
    requires WellFormed(nodes) && i < |nodes|
    ensures AllHooks(nodes, i, which) == ConcatOwn(nodes, Hierarchy(nodes, i), which)
    decreases i
  {
    match nodes[i].parent {
      case None =>
        assert Hierarchy(nodes, i) == [i];
        assert Hierarchy(nodes, i)[..0] == [];
      case Some(p) =>
        AllHooksAlongHierarchy(nodes, p, which);
        HierarchyOfChild(nodes, i, p);
        assert (Hierarchy(nodes, p) + [i])[..|Hierarchy(nodes, p)|] == Hierarchy(nodes, p);
    }
  }

  /**
   * An inherited dict holds a name iff some context of the hierarchy
   * defines it, and the definition of the innermost such context wins.
   */
  lemma {:induction false} InnermostDefinitionWins(nodes: seq<ContextNode>, i: nat, which: HookDict, name: Name, j: nat)
    requires WellFormed(nodes) && i < |nodes|
    requires j < |Hierarchy(nodes, i)| && name in OwnDict(nodes[Hierarchy(nodes, i)[j]], which)
    requires forall j' :: j < j' < |Hierarchy(nodes, i)| ==> name !in OwnDict(nodes[Hierarchy(nodes, i)[j']], which)
    ensures name in AllDict(nodes, i, which)
    ensures AllDict(nodes, i, which)[name] == OwnDict(nodes[Hierarchy(nodes, i)[j]], which)[name]
    decreases i
  {
    var h := Hierarchy(nodes, i);
    if j == |h| - 1 {
      assert h[j] == i;
    } else {
      var p := nodes[i].parent.value;
      HierarchyOfChild(nodes, i, p);
      var hp := Hierarchy(nodes, p);
      assert h == hp + [i];
      assert h[|h| - 1] == i;
      assert name !in OwnDict(nodes[i], which);
      forall j' | j < j' < |hp|
        ensures name !in OwnDict(nodes[hp[j']], which)
      {
        assert h[j'] == hp[j'];
      }
      assert h[j] == hp[j];
      InnermostDefinitionWins(nodes, p, which, name, j);
    }
  }

  /** A name no context of the hierarchy defines is not in the inherited dict. */
  lemma {:induction false} UndefinedNameAbsent(nodes: seq<ContextNode>, i: nat, which: HookDict, name: Name)
    requires WellFormed(nodes) && i < |nodes|
    requires forall j :: 0 <= j < |Hierarchy(nodes, i)| ==> name !in OwnDict(nodes[Hierarchy(nodes, i)[j]], which)
    ensures name !in AllDict(nodes, i, which)
    decreases i
  {
    var h := Hierarchy(nodes, i);
    assert h[|h| - 1] == i;
    if nodes[i].parent.Some? {
      var p := nodes[i].parent.value;
      HierarchyOfChild(nodes, i, p);
      var hp := Hierarchy(nodes, p);
      forall j | 0 <= j < |hp|
        ensures name !in OwnDict(nodes[hp[j]], which)
      {
        assert h[j] == hp[j];
      }
      UndefinedNameAbsent(nodes, p, which, name);
    }
  }

  /** `c` is in the hierarchy of `x`, and `p` is `c`'s parent: then `p` is too. */
  lemma {:induction false} ParentInHierarchy(nodes: seq<ContextNode>, x: nat, c: nat, p: nat)
    requires WellFormed(nodes) && x < |nodes| && c < |nodes| && nodes[c].parent == Some(p)
    requires c in Hierarchy(nodes, x)
    ensures p in Hierarchy(nodes, x)
    decreases x
  {
    if x == c {
      HierarchyOfChild(nodes, c, p);
      assert Hierarchy(nodes, p)[|Hierarchy(nodes, p)| - 1] == p;
    } else {
      var q := nodes[x].parent;
      if q.Some? {
        HierarchyOfChild(nodes, x, q.value);
        ParentInHierarchy(nodes, q.value, c, p);
      }
    }
  }

  /** Every example of `all_examples` belongs to the context or to a context below it. */
  lemma {:induction false} AllExamplesInSubtree(nodes: seq<ContextNode>, i: nat, e: Example)
    requires WellFormed(nodes) && i < |nodes|
    requires e in AllExamplesOf(nodes, i)
    ensures e.context < |nodes| && i in Hierarchy(nodes, e.context)
    decreases |nodes| - i, 1, 0
  {
    var own := nodes[i].examples;
    if e in own {
      var k :| 0 <= k < |own| && own[k] == e;
      assert Hierarchy(nodes, i)[|Hierarchy(nodes, i)| - 1] == i;
    } else {
      ChildExamplesInSubtree(nodes, i, nodes[i].children, e);
    }
  }

  lemma {:induction false} ChildExamplesInSubtree(nodes: seq<ContextNode>, i: nat, cs: seq<nat>, e: Example)
    requires WellFormed(nodes) && i < |nodes|
    requires forall k :: 0 <= k < |cs| ==> i < cs[k] < |nodes| && nodes[cs[k]].parent == Some(i)
    requires e in ChildExamples(nodes, i, cs)
    ensures e.context < |nodes| && i in Hierarchy(nodes, e.context)
    decreases |nodes| - i, 0, |cs|
  {
    var last := cs[|cs| - 1];
    if e in ChildExamples(nodes, i, cs[..|cs| - 1]) {
      ChildExamplesInSubtree(nodes, i, cs[..|cs| - 1], e);
    } else {
      AllExamplesInSubtree(nodes, last, e);
      ParentInHierarchy(nodes, e.context, last, i);
    }
  }

  // ---------------------------------------------------------------------
  // The tree and the operations that grow it

  class ContextTree {
    var nodes: seq<ContextNode>
    var topLevel: seq<nat>

    /**
     * Sibling contexts, the top-level contexts, the examples of one
     * context: each has distinct names.
     */
    ghost predicate Valid()
      reads this
    {
      WellFormed(nodes)
      && (forall k :: 0 <= k < |topLevel| ==> topLevel[k] < |nodes| && nodes[topLevel[k]].parent.None?)
      && Distinct(NamesOf(nodes, topLevel))
      && (forall i :: 0 <= i < |nodes| ==> Distinct(NamesOf(nodes, nodes[i].children)))
      && (forall i :: 0 <= i < |nodes| ==> Distinct(ExampleNames(nodes[i].examples)))
    }

    constructor ()
      ensures Valid() && nodes == [] && topLevel == []
    {
      nodes := [];
      topLevel := [];
    }

    /**
     * `Context(name, parent_context, shared, skip, focus)`: the name must
     * be new among the parent's children, or among the top-level contexts
     * when there is no parent; a context without a parent that is not
     * shared becomes top-level.  The parent's children list is not
     * touched.
     */
    method NewContext(name: string, parent: Option<nat>, shared: bool, skip: bool, focus: bool)
      returns (r: Result<nat, ExcKind>)
      requires Valid() && (parent.Some? ==> parent.value < |nodes|)
      modifies this
      ensures Valid()
      ensures r.Err? <==> name in (if parent.Some? then old(NamesOf(nodes, nodes[parent.value].children))
                                   else old(NamesOf(nodes, topLevel)))
      ensures r.Err? ==> r.error == RuntimeError && nodes == old(nodes) && topLevel == old(topLevel)
      ensures r.Ok? ==> r.value == old(|nodes|) && nodes == old(nodes) + [NewNode(name, parent, shared, skip, focus)]
      ensures r.Ok? ==> topLevel == if parent.None? && !shared then old(topLevel) + [r.value] else old(topLevel)
    {
      var level := if parent.Some? then NamesOf(nodes, nodes[parent.value].children) else NamesOf(nodes, topLevel);
      if name in level {
        return Err(RuntimeError);
      }
      var i := |nodes|;
      ghost var old_nodes := nodes;
      nodes := nodes + [NewNode(name, parent, shared, skip, focus)];
      NamesStable(old_nodes, nodes, topLevel);
      ChildNamesStable(old_nodes, nodes);
      if parent.None? && !shared {
        assert NamesOf(nodes, topLevel + [i]) == NamesOf(old_nodes, topLevel) + [name];
        topLevel := topLevel + [i];
      }
      r := Ok(i);
    }

    /** `add_child_context(name, skip, focus)`: refused iff a child already has the name. */
    method AddChildContext(ctx: nat, name: string, skip: bool, focus: bool) returns (r: Result<nat, ExcKind>)
      requires Valid() && ctx < |nodes|
      modifies this
      ensures Valid()
      ensures r.Err? <==> name in old(NamesOf(nodes, nodes[ctx].children))
      ensures r.Err? ==> r.error == RuntimeError && nodes == old(nodes) && topLevel == old(topLevel)
      ensures r.Ok? ==> r.value == old(|nodes|) && topLevel == old(topLevel)
      ensures r.Ok? ==>
        nodes == (old(nodes) + [NewNode(name, Some(ctx), false, skip, focus)])[ctx := old(nodes[ctx]).(children := old(nodes[ctx].children) + [r.value])]
    {
      if name in NamesOf(nodes, nodes[ctx].children) {
        return Err(RuntimeError);
      }
      var i := |nodes|;
      ghost var n0 := nodes;
      var child := NewNode(name, Some(ctx), false, skip, focus);
      var n1 := nodes + [child];
      var n2 := n1[ctx := n1[ctx].(children := n1[ctx].children + [i])];
      AddChildKeepsWellFormed(n0, ctx, child);
      ChildNamesAfterAdd(n0, ctx, child);
      NamesStable(n0, n2, topLevel);
      nodes := n2;
      r := Ok(i);
    }

    /** `add_example(name, code, skip, focus)`: refused iff the context already has an example of that name. */
    method AddExample(ctx: nat, name: string, code: Hook, skip: bool, focus: bool) returns (r: Result<Example, ExcKind>)
      requires Valid() && ctx < |nodes|
      modifies this
      ensures Valid() && topLevel == old(topLevel)
      ensures r.Err? <==> name in old(ExampleNames(nodes[ctx].examples))
      ensures r.Err? ==> r.error == RuntimeError && nodes == old(nodes)
      ensures r.Ok? ==> r.value == Example(name, code, ctx, skip, focus)
      ensures r.Ok? ==> nodes == old(nodes)[ctx := old(nodes[ctx]).(examples := old(nodes[ctx].examples) + [r.value])]
    {
      if name in ExampleNames(nodes[ctx].examples) {
        return Err(RuntimeError);
      }
      var e := Example(name, code, ctx, skip, focus);
      ghost var n0 := nodes;
      nodes := nodes[ctx := nodes[ctx].(examples := nodes[ctx].examples + [e])];
      NodeUpdateKeepsNames(n0, ctx, nodes[ctx]);
      assert ExampleNames(nodes[ctx].examples) == ExampleNames(n0[ctx].examples) + [name];
      r := Ok(e);
    }

    /** `add_function(name, code)`: refused iff the context has a function or memoized attribute of that name. */
    method AddFunction(ctx: nat, name: Name, code: Hook) returns (err: Option<ExcKind>)
      requires Valid() && ctx < |nodes|
      modifies this
      ensures Valid() && topLevel == old(topLevel)
      ensures err.Some? <==> HasAttribute(old(nodes[ctx]), name)
      ensures err.Some? ==> err.value == AttributeError && nodes == old(nodes)
      ensures err.None? ==> nodes == old(nodes)[ctx := old(nodes[ctx]).(methods := old(nodes[ctx].methods)[name := code])]
    {
      if HasAttribute(nodes[ctx], name) {
        return Some(AttributeError);
      }
      ghost var n0 := nodes;
      nodes := nodes[ctx := nodes[ctx].(methods := nodes[ctx].methods[name := code])];
      NodeUpdateKeepsNames(n0, ctx, nodes[ctx]);
      err := None;
    }

    /**
     * `add_memoized_attribute(name, code, before)`: refused like
     * `add_function`; with `before`, a materializing hook (a coroutine
     * function when the code is one) is appended to the before hooks.
     */
    method AddMemoizedAttribute(ctx: nat, name: Name, code: nat, coroutine: bool, before: bool) returns (err: Option<ExcKind>)
      requires Valid() && ctx < |nodes|
      modifies this
      ensures Valid() && topLevel == old(topLevel)
      ensures err.Some? <==> HasAttribute(old(nodes[ctx]), name)
      ensures err.Some? ==> err.value == AttributeError && nodes == old(nodes)
      ensures err.None? ==> nodes == old(nodes)[ctx := old(nodes[ctx]).(
        memoized := old(nodes[ctx].memoized)[name := Code(code, coroutine)],
        before := old(nodes[ctx].before) + if before then [Materialize(name, code, coroutine)] else [])]
    {
      if HasAttribute(nodes[ctx], name) {
        return Some(AttributeError);
      }
      ghost var n0 := nodes;
      var n := nodes[ctx].(memoized := nodes[ctx].memoized[name := Code(code, coroutine)]);
      if before {
        n := n.(before := n.before + [Materialize(name, code, coroutine)]);
      }
      assert n.before == nodes[ctx].before + if before then [Materialize(name, code, coroutine)] else [];
      nodes := nodes[ctx := n];
      NodeUpdateKeepsNames(n0, ctx, n);
      err := None;
    }

    /** `add_shared_context(name, code)`: refused iff the name is already a shared context of this context. */
    method AddSharedContext(ctx: nat, name: Name, code: Hook) returns (err: Option<ExcKind>)
      requires Valid() && ctx < |nodes|
      modifies this
      ensures Valid() && topLevel == old(topLevel)
      ensures err.Some? <==> name in old(nodes[ctx].sharedContexts)
      ensures err.Some? ==> err.value == RuntimeError && nodes == old(nodes)
      ensures err.None? ==> nodes == old(nodes)[ctx := old(nodes[ctx]).(sharedContexts := old(nodes[ctx].sharedContexts)[name := code])]
    {
      if name in nodes[ctx].sharedContexts {
        return Some(RuntimeError);
      }
      ghost var n0 := nodes;
      nodes := nodes[ctx := nodes[ctx].(sharedContexts := nodes[ctx].sharedContexts[name := code])];
      NodeUpdateKeepsNames(n0, ctx, nodes[ctx]);
      err := None;
    }

    /** `add_test_case(test_case, attr_name)`: one more around hook. */
    method AddTestCase(ctx: nat, testCase: nat, attrName: Name)
      requires Valid() && ctx < |nodes|
      modifies this
      ensures Valid() && topLevel == old(topLevel)
      ensures nodes == old(nodes)[ctx := old(nodes[ctx]).(around := old(nodes[ctx].around) + [WrapTestCase(testCase, attrName)])]
    {
      ghost var n0 := nodes;
      nodes := nodes[ctx := nodes[ctx].(around := nodes[ctx].around + [WrapTestCase(testCase, attrName)])];
      NodeUpdateKeepsNames(n0, ctx, nodes[ctx]);
    }

    /** `reset()`: forget the top-level contexts. */
    method Reset()
      requires Valid()
      modifies this
      ensures Valid() && topLevel == [] && nodes == old(nodes)
    {
      topLevel := [];
    }

    /** `parent_contexts`, as the loop of the source computes it. */
    method ParentContexts(i: nat) returns (r: seq<nat>)
      requires Valid() && i < |nodes|
      ensures r == Ancestors(nodes, i)
    {
      r := [];
      var parent := nodes[i].parent;
      while parent.Some?
        invariant parent.Some? ==> parent.value < |nodes|
        invariant r + (if parent.Some? then [parent.value] + Ancestors(nodes, parent.value) else []) == Ancestors(nodes, i)
        decreases if parent.Some? then parent.value + 1 else 0
      {
        r := r + [parent.value];
        parent := nodes[parent.value].parent;
      }
    }

    /** `all_examples`, as the loop of the source computes it. */
    method AllExamples(i: nat) returns (r: seq<Example>)
      requires Valid() && i < |nodes|
      ensures r == AllExamplesOf(nodes, i)
      decreases |nodes| - i
    {
      var cs := nodes[i].children;
      r := nodes[i].examples;
      for k := 0 to |cs|
        invariant r == nodes[i].examples + ChildExamples(nodes, i, cs[..k])
      {
        assert cs[..k + 1][..k] == cs[..k];
        var sub := AllExamples(cs[k]);
        r := r + sub;
      }
      assert cs[..|cs|] == cs;
    }
  }

  // Helpers for the frame of the operations above.

  lemma NamesStable(n0: seq<ContextNode>, n1: seq<ContextNode>, cs: seq<nat>)
    requires InRange(n0, cs) && |n0| <= |n1|
    requires forall k :: 0 <= k < |n0| ==> n1[k].name == n0[k].name
    ensures InRange(n1, cs) && NamesOf(n1, cs) == NamesOf(n0, cs)
  {
  }

  lemma ChildNamesStable(n0: seq<ContextNode>, n1: seq<ContextNode>)
    requires WellFormed(n0) && |n1| == |n0| + 1 && n1[..|n0|] == n0
    requires n1[|n0|].children == [] && n1[|n0|].examples == []
    requires n1[|n0|].parent.Some? ==> n1[|n0|].parent.value < |n0|
    requires forall i :: 0 <= i < |n0| ==> Distinct(NamesOf(n0, n0[i].children))
    requires forall i :: 0 <= i < |n0| ==> Distinct(ExampleNames(n0[i].examples))
    ensures WellFormed(n1)
    ensures forall i :: 0 <= i < |n1| ==> Distinct(NamesOf(n1, n1[i].children))
    ensures forall i :: 0 <= i < |n1| ==> Distinct(ExampleNames(n1[i].examples))
  {
    forall i | 0 <= i < |n0|
      ensures n1[i] == n0[i]
    {
      assert n1[..|n0|][i] == n1[i];
    }
    forall i | 0 <= i < |n1|
      ensures Distinct(NamesOf(n1, n1[i].children))
    {
      if i < |n0| {
        NamesStable(n0, n1, n0[i].children);
      }
    }
  }

  lemma NodeUpdateKeepsNames(n0: seq<ContextNode>, ctx: nat, n: ContextNode)
    requires WellFormed(n0) && ctx < |n0|
    requires n.name == n0[ctx].name && n.parent == n0[ctx].parent && n.children == n0[ctx].children
    requires forall k :: 0 <= k < |n.examples| ==> n.examples[k].context == ctx
    ensures WellFormed(n0[ctx := n])
    ensures forall cs :: InRange(n0, cs) ==> NamesOf(n0[ctx := n], cs) == NamesOf(n0, cs)
    ensures forall i :: 0 <= i < |n0| ==> n0[ctx := n][i].children == n0[i].children
    ensures forall i :: 0 <= i < |n0| && i != ctx ==> n0[ctx := n][i].examples == n0[i].examples
  {
    forall cs | InRange(n0, cs)
      ensures NamesOf(n0[ctx := n], cs) == NamesOf(n0, cs)
    {
      NamesStable(n0, n0[ctx := n], cs);
    }
  }

  lemma AddChildKeepsWellFormed(n0: seq<ContextNode>, ctx: nat, child: ContextNode)
    requires WellFormed(n0) && ctx < |n0|
    requires child.parent == Some(ctx) && child.children == [] && child.examples == []
    ensures var n1 := n0 + [child];
      WellFormed(n1[ctx := n1[ctx].(children := n1[ctx].children + [|n0|])])
  {
    var n1 := n0 + [child];
    var n2 := n1[ctx := n1[ctx].(children := n1[ctx].children + [|n0|])];
    forall i, j | 0 <= i < |n2| && 0 <= j < |n2[i].children|
      ensures i < n2[i].children[j] < |n2| && n2[n2[i].children[j]].parent == Some(i)
    {
      if i != ctx || j < |n0[ctx].children| {
        assert n2[i].children[j] == n0[i].children[j];
      }
    }
  }

  lemma ChildNamesAfterAdd(n0: seq<ContextNode>, ctx: nat, child: ContextNode)
    requires WellFormed(n0) && ctx < |n0|
    requires child.parent == Some(ctx) && child.children == [] && child.examples == []
    requires child.name !in NamesOf(n0, n0[ctx].children)
    requires forall i :: 0 <= i < |n0| ==> Distinct(NamesOf(n0, n0[i].children))
    requires forall i :: 0 <= i < |n0| ==> Distinct(ExampleNames(n0[i].examples))
    ensures var n1 := n0 + [child];
      var n2 := n1[ctx := n1[ctx].(children := n1[ctx].children + [|n0|])];
      (forall i :: 0 <= i < |n2| ==> Distinct(NamesOf(n2, n2[i].children)))
      && (forall i :: 0 <= i < |n2| ==> Distinct(ExampleNames(n2[i].examples)))
  {
    var n1 := n0 + [child];
    var n2 := n1[ctx := n1[ctx].(children := n1[ctx].children + [|n0|])];
    forall i | 0 <= i < |n2|
      ensures Distinct(NamesOf(n2, n2[i].children))
    {
      if i == ctx {
        NamesStable(n0, n2, n0[ctx].children);
        assert NamesOf(n2, n0[ctx].children + [|n0|]) == NamesOf(n0, n0[ctx].children) + [child.name];
      } else if i < |n0| {
        NamesStable(n0, n2, n0[i].children);
      }
    }
    forall i | 0 <= i < |n2|
      ensures Distinct(ExampleNames(n2[i].examples))
    {
      if i < |n0| {
        assert n2[i].examples == n0[i].examples;
      }
    }
  }

  // ---------------------------------------------------------------------
  // AggregatedExceptions

  predicate Flat(xs: seq<Exc>)
  {
    forall k :: 0 <= k < |xs| ==> !xs[k].Aggregated?
  }

  predicate IsSkip(x: Exc)
  {
    x == Raised(Skip) || x == Raised(SkipTest)
  }

  /** The list after `append_exception(e)`: an aggregate contributes its items, anything else itself. */
  function Appended(xs: seq<Exc>, e: Exc): (r: seq<Exc>)
    ensures |r| >= |xs| && r[..|xs|] == xs
  {
    match e
    case Aggregated(items) => xs + items
    case Raised(_) => xs + [e]
  }

  /** What `raise_correct_exception` raises, if anything. */
  function RaiseCorrect(xs: seq<Exc>): (r: Option<Exc>)
    ensures r.None? <==> xs == []
    ensures r == Some(Raised(Skip)) <==> exists k :: 0 <= k < |xs| && IsSkip(xs[k])
    ensures r.Some? && r.value.Aggregated? && r.value != xs[0] ==>
      (r.value.items == xs && |xs| >= 2 && forall k :: 0 <= k < |xs| ==> !IsSkip(xs[k]))
    ensures |xs| == 1 && !IsSkip(xs[0]) ==> r == Some(xs[0])
    ensures |xs| >= 2 && (forall k :: 0 <= k < |xs| ==> !IsSkip(xs[k])) ==> r == Some(Aggregated(xs))
  {
    if xs == [] then None
    else if exists k :: 0 <= k < |xs| && IsSkip(xs[k]) then Some(Raised(Skip))
    else if |xs| == 1 then Some(xs[0])
    else Some(Aggregated(xs))
  }

  /** Appending keeps the list free of aggregates when the appended aggregate is itself flat. */
  lemma AppendKeepsFlat(xs: seq<Exc>, e: Exc)
    requires Flat(xs) && (e.Aggregated? ==> Flat(e.items))
    ensures Flat(Appended(xs, e))
    ensures |Appended(xs, e)| == |xs| + (if e.Aggregated? then |e.items| else 1)
  {
  }

  /** An aggregate that `raise_correct_exception` raises is never nested when its list is flat. */
  lemma RaisedAggregateIsFlat(xs: seq<Exc>)
    requires Flat(xs)
    ensures RaiseCorrect(xs).Some? ==> var x := RaiseCorrect(xs).value;
      !x.Aggregated? || Flat(x.items)
  {
  }

  class AggregatedExceptions {
    var exceptions: seq<Exc>

    constructor ()
      ensures exceptions == []
    {
      exceptions := [];
    }

    /** `append_exception(e)`. */
    method AppendException(e: Exc)
      modifies this
      ensures exceptions == Appended(old(exceptions), e)
    {
      if e.Aggregated? {
        exceptions := exceptions + e.items;
      } else {
        exceptions := exceptions + [e];
      }
    }

    /** `with catch(): ...` around a block that ends with `outcome`. */
    method Catch(outcome: Option<Exc>)
      modifies this
      ensures exceptions == if outcome.Some? then Appended(old(exceptions), outcome.value) else old(exceptions)
    {
      if outcome.Some? {
        AppendException(outcome.value);
      }
    }

    /** `raise_correct_exception()`: the exception raised, if any. */
    method RaiseCorrectException() returns (r: Option<Exc>)
      ensures r == RaiseCorrect(exceptions)
    {
      if exceptions == [] {
        return None;
      }
      var i := 0;
      while i < |exceptions|
        invariant 0 <= i <= |exceptions|
        invariant forall k :: 0 <= k < i ==> !IsSkip(exceptions[k])
      {
        if IsSkip(exceptions[i]) {
          return Some(Raised(Skip));
        }
        i := i + 1;
      }
      if |exceptions| == 1 {
        r := Some(exceptions[0]);
      } else {
        r := Some(Aggregated(exceptions));
      }
    }
  }

  // ---------------------------------------------------------------------
  // `_ContextData.__setattr__`

  /** The attribute table after `setattr(context_data, name, v)`, or the error. */
  function SetAttributeSpec(attrs: map<Name, Value>, name: Name, v: Value): (r: Result<map<Name, Value>, ExcKind>)
    ensures r.Err? ==> r.error == AttributeError
    ensures r.Ok? ==> (r.value.Keys == attrs.Keys + {name} && r.value[name] == v
      && forall n :: n in attrs && n != name ==> r.value[n] == attrs[n])
  {
    if name in attrs && Truthy(attrs[name]) && !PyEq(attrs[name], v) then Err(AttributeError)
    else Ok(attrs[name := v])
  }

  /**
   * Once an attribute holds a truthy value, only an equal value may be
   * assigned again; a falsy or missing one may be set to anything.
   */
  lemma WriteOnce(attrs: map<Name, Value>, name: Name, v: Value, w: Value)
    requires SetAttributeSpec(attrs, name, v).Ok?
    ensures Truthy(v) ==> (SetAttributeSpec(SetAttributeSpec(attrs, name, v).value, name, w).Ok? <==> PyEq(v, w))
    ensures !Truthy(v) ==> SetAttributeSpec(SetAttributeSpec(attrs, name, v).value, name, w).Ok?
  {
  }

  /**
   * The objects `_ContextData.__init__` stores: the example, its formatter
   * and context, the `unittest.TestCase`, the sub-example aggregate, the
   * `assert_sub_examples` function it registers with `after`, and the four
   * mock functions (`mock_callable`, `mock_async_callable`,
   * `mock_constructor`, `patch_attribute`).
   */
  datatype InitObjects = InitObjects(example: Value, formatter: Value, context: Value, testCase: Value,
                                     subExamples: Value, assertSubExamples: Value, mockFunctions: seq<Value>)

  /**
   * The attributes after `__init__`: every name it sets, `_after_functions`
   * already holding `assert_sub_examples` (appended in place by `after`), and
   * `_mock_callable_after_functions` still empty.
   */
  function InitialData(o: InitObjects): (r: map<Name, Value>)
    requires |o.mockFunctions| == 4
    ensures r.Keys == {"_example", "_formatter", "_context", "_after_functions", "_test_case", "_sub_examples_agg_ex",
                       "mock_callable", "mock_async_callable", "mock_constructor", "patch_attribute",
                       "_mock_callable_after_functions"}
    ensures r["_after_functions"] == ListV([o.assertSubExamples]) && r["_mock_callable_after_functions"] == ListV([])
  {
    map["_example" := o.example, "_formatter" := o.formatter, "_context" := o.context,
        "_after_functions" := ListV([o.assertSubExamples]), "_test_case" := o.testCase,
        "_sub_examples_agg_ex" := o.subExamples,
        "mock_callable" := o.mockFunctions[0], "mock_async_callable" := o.mockFunctions[1],
        "mock_constructor" := o.mockFunctions[2], "patch_attribute" := o.mockFunctions[3],
        "_mock_callable_after_functions" := ListV([])]
  }

  /**
   * Right after `__init__`, writing `_after_functions` fails unless the value
   * equals the list it holds, while `_mock_callable_after_functions`, still
   * an empty (falsy) list, may be set to anything.
   */
  lemma InitialDataGuards(o: InitObjects, v: Value)
    requires |o.mockFunctions| == 4
    ensures SetAttributeSpec(InitialData(o), "_after_functions", v).Err? <==> !PyEq(ListV([o.assertSubExamples]), v)
    ensures SetAttributeSpec(InitialData(o), "_mock_callable_after_functions", v).Ok?
  {
    assert Truthy(InitialData(o)["_after_functions"]);
  }

  class ContextData {
    var attrs: map<Name, Value>

    constructor (o: InitObjects)
      requires |o.mockFunctions| == 4
      ensures attrs == InitialData(o)
    {
      attrs := InitialData(o);
    }

    /** `__setattr__(name, value)`. */
    method SetAttribute(name: Name, v: Value) returns (err: Option<ExcKind>)
      modifies this
      ensures SetAttributeSpec(old(attrs), name, v).Err? ==> err == Some(AttributeError) && attrs == old(attrs)
      ensures SetAttributeSpec(old(attrs), name, v).Ok? ==> err.None? && attrs == SetAttributeSpec(old(attrs), name, v).value
    {
      if name in attrs && Truthy(attrs[name]) && !PyEq(attrs[name], v) {
        return Some(AttributeError);
      }
      attrs := attrs[name := v];
      err := None;
    }
  }
}
