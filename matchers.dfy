/**
 * The matcher algebra of testslide/core/matchers.py.
 *
 * A matcher is an object whose `__eq__` answers "does this value match?".
 * Comparing can also raise (`len()` of an int, `x in 5`, `list(5)`), so the
 * answer of a comparison is a `Verdict`.  Plain values may stand where a
 * matcher is expected (the right operand of `&`, an accepted call argument):
 * those are `Lit` patterns and compare with ordinary `==`.
 */
module Matchers {
  import opened Values

  /** The outcome of evaluating `matcher == other`. */
  datatype Verdict = Answer(holds: bool) | Raises(kind: ExcKind)

  /** The optional bounds of `_RichComparison`; floats are not modelled. */
  datatype Bounds = Bounds(lt: Option<int>, le: Option<int>, eq: Option<int>,
                           ne: Option<int>, ge: Option<int>, gt: Option<int>)

  const NoBounds := Bounds(None, None, None, None, None, None)

  datatype Pattern =
    | Lit(v: Value)
      /** `_RichComparison`: AnyInt, NotThisInt, Int*, AnyStr, AnyList, AnyDict, AnyInstanceOf. */
    | Rich(klass: PyType, bounds: Bounds)
    | StrContaining(text: string)
    | StrStartingWith(prefix: string)
    | StrEndingWith(suffix: string)
    | ListContaining(item: Value)
    | ListContainingAll(subset: seq<Value>)
    | NotEmptyList
    | EmptyList
    | NotEmptyDict
    | EmptyDict
    | DictContainingKeys(expectedKeys: seq<Value>)
    | DictSupersetOf(subsetKeys: seq<Value>, subsetMap: map<Value, Value>)
    | AnyContaining(needle: Value)
    | AnyContainingAll(elems: seq<Value>)
    | AnyIterable
    | IterableWithElements(elements: seq<Value>)
    | AnyNotEmpty
    | AnyEmpty
    | Anything
    | AnyTruthy
    | AnyFalsey
    | And(a: Pattern, b: Pattern)
    | Or(a: Pattern, b: Pattern)
    | Xor(a: Pattern, b: Pattern)
    | Inv(m: Pattern)

  /** The results of `&`, `|`, `^` and `~`, which refuse any further chaining. */
  predicate Chained(p: Pattern)
  {
    p.And? || p.Or? || p.Xor? || p.Inv?
  }

  // ---------------------------------------------------------------------
  // Python's `and`, `or` and `not` over verdicts (short-circuit, left to right)

  function AndThen(x: Verdict, y: Verdict): Verdict
  {
    if x == Answer(true) then y else x
  }

  function OrElse(x: Verdict, y: Verdict): Verdict
  {
    if x == Answer(false) then y else x
  }

  function Not(x: Verdict): Verdict
  {
    if x.Answer? then Answer(!x.holds) else x
  }

  // ---------------------------------------------------------------------
  // The Python operations that matchers apply to the compared value

  /** `needle in container`. */
  function Contains(container: Value, needle: Value): Verdict
  {
    match container
    case StrV(s) => if needle.StrV? then Answer(IsSubstring(needle.s, s)) else Raises(TypeError)
    case ListV(items) => Answer(ListHas(items, needle))
    case DictV(_, entries) => if Hashable(needle) then Answer(KeyOf(needle) in entries) else Raises(TypeError)
    case _ => Raises(TypeError)
  }

  /** `all(x in container for x in xs)`: stops at the first miss or error. */
  function AllIn(xs: seq<Value>, container: Value): Verdict
  {
    if xs == [] then Answer(true) else AndThen(Contains(container, xs[0]), AllIn(xs[1..], container))
  }

  /** Whether `iter(v)` succeeds. */
  predicate Iterable(v: Value)
  {
    v.StrV? || v.ListV? || v.DictV?
  }

  /** `list(v)` for an iterable: characters, items, or keys in insertion order. */
  function Elements(v: Value): (r: seq<Value>)
    requires Iterable(v)
  {
    match v
    case StrV(s) => seq(|s|, i requires 0 <= i < |s| => StrV([s[i]]))
    case ListV(items) => items
    case DictV(keys, _) => keys
  }

  /** `xs == ys` between lists: same length, then elementwise `==`. */
  predicate ListEq(xs: seq<Value>, ys: seq<Value>)
  {
    |xs| == |ys| && forall i :: 0 <= i < |xs| ==> PyEq(xs[i], ys[i])
  }

  /** Whether `len(v)` succeeds, and its result. */
  predicate Sized(v: Value)
  {
    v.StrV? || v.ListV? || v.DictV?
  }

  function Len(v: Value): nat
    requires Sized(v)
  {
    match v
    case StrV(s) => |s|
    case ListV(items) => |items|
    case DictV(_, entries) => |entries|
  }

  /** `other < n`, `other <= n`, ... for an `int` bound. */
  datatype Order = Lt | Le | Ge | Gt

  function Compare(other: Value, op: Order, n: int): Verdict
  {
    if !IsNumeric(other) then Raises(TypeError)
    else
      var x := Num(other);
      Answer(match op
             case Lt => x < n
             case Le => x <= n
             case Ge => x >= n
             case Gt => x > n)
  }

  function Bound(other: Value, op: Order, b: Option<int>): Verdict
  {
    if b.None? then Answer(true) else Compare(other, op, b.value)
  }

  /** `_RichComparison.__eq__`: the type test, then each bound in declaration order. */
  function RichCompare(klass: PyType, b: Bounds, other: Value): Verdict
  {
    if !InstanceOf(other, klass) then Answer(false)
    else
      AndThen(Bound(other, Lt, b.lt),
      AndThen(Bound(other, Le, b.le),
      AndThen(if b.eq.None? then Answer(true) else Answer(PyEq(other, IntV(b.eq.value))),
      AndThen(if b.ne.None? then Answer(true) else Answer(!PyEq(other, IntV(b.ne.value))),
      AndThen(Bound(other, Ge, b.ge),
              Bound(other, Gt, b.gt))))))
  }

  /** `DictSupersetOf.__eq__` after the type test: a missing key is `KeyError`, caught as false. */
  function SupersetOf(keys: seq<Value>, subset: map<Value, Value>, other: map<Value, Value>): Verdict
  {
    if keys == [] then Answer(true)
    else
      var k := keys[0];
      if !Hashable(k) then Raises(TypeError)
      else if KeyOf(k) !in other || KeyOf(k) !in subset then Answer(false)
      else if !PyEq(other[KeyOf(k)], subset[KeyOf(k)]) then Answer(false)
      else SupersetOf(keys[1..], subset, other)
  }

  /** `pattern == other`. */
  function Matches(p: Pattern, other: Value): Verdict
  {
    match p
    case Lit(v) => Answer(PyEq(v, other))
    case Rich(klass, b) => RichCompare(klass, b, other)
    case StrContaining(n) => Answer(other.StrV? && IsSubstring(n, other.s))
    case StrStartingWith(n) => Answer(other.StrV? && IsPrefix(n, other.s))
    case StrEndingWith(n) => Answer(other.StrV? && IsSuffix(n, other.s))
    case ListContaining(n) => Answer(other.ListV? && ListHas(other.items, n))
    case ListContainingAll(xs) => if other.ListV? then AllIn(xs, other) else Answer(false)
    case NotEmptyList => Answer(other.ListV? && |other.items| > 0)
    case EmptyList => Answer(other.ListV? && |other.items| == 0)
    case NotEmptyDict => Answer(other.DictV? && |other.entries| > 0)
    case EmptyDict => Answer(other.DictV? && |other.entries| == 0)
    case DictContainingKeys(ks) => if other.DictV? then AllIn(ks, other) else Answer(false)
    case DictSupersetOf(ks, sub) => if other.DictV? then SupersetOf(ks, sub, other.entries) else Answer(false)
    case AnyContaining(n) => Contains(other, n)
    case AnyContainingAll(xs) => AllIn(xs, other)
    case AnyIterable => Answer(Iterable(other))
    case IterableWithElements(es) => if Iterable(other) then Answer(ListEq(es, Elements(other))) else Raises(TypeError)
    case AnyNotEmpty => if Sized(other) then Answer(Len(other) != 0) else Raises(TypeError)
    case AnyEmpty => if Sized(other) then Answer(Len(other) == 0) else Raises(TypeError)
    case Anything => Answer(true)
    case AnyTruthy => Answer(Truthy(other))
    case AnyFalsey => Answer(!Truthy(other))
    case And(a, b) => AndThen(Matches(a, other), Matches(b, other))
    case Or(a, b) => OrElse(Matches(a, other), Matches(b, other))
    case Xor(a, b) =>
      // (a == other or b != other) and (a != other or b == other)
      var ma, mb := Matches(a, other), Matches(b, other);
      AndThen(OrElse(ma, Not(mb)), OrElse(Not(ma), mb))
    case Inv(m) => Not(Matches(m, other))
  }

  // ---------------------------------------------------------------------
  // Combinators

  datatype Op = AndOp | OrOp | XorOp

  /** Whether Python stops after the left operand: `False and ...`, `True or ...`. */
  predicate ShortCircuits(op: Op, left: Verdict)
  {
    (op == AndOp && left == Answer(false)) || (op == OrOp && left == Answer(true))
  }

  /**
   * `left & right`, `left | right`, `left ^ right`.  A chained left operand
   * raises AlreadyChainedException; a plain value on the left has no `__and__`
   * accepting a matcher, so Python raises TypeError.  The right operand is
   * never inspected.
   */
  function Combine(op: Op, left: Pattern, right: Pattern): (r: Result<Pattern, ExcKind>)
    requires !(left.Lit? && right.Lit?)
    ensures r == Err(AlreadyChainedException) <==> Chained(left)
    ensures r.Ok? <==> !Chained(left) && !left.Lit?
    ensures r.Ok? ==> Chained(r.value)
    ensures r.Ok? ==> forall v: Value :: Matches(r.value, v).Raises? <==>
      (Matches(left, v).Raises? || (!ShortCircuits(op, Matches(left, v)) && Matches(right, v).Raises?))
    ensures r.Ok? ==> forall v: Value :: Matches(left, v).Answer? && Matches(right, v).Answer? ==>
      var x, y := Matches(left, v).holds, Matches(right, v).holds;
      Matches(r.value, v) == Answer(match op case AndOp => x && y case OrOp => x || y case XorOp => x == y)
  {
    if Chained(left) then Err(AlreadyChainedException)
    else if left.Lit? then Err(TypeError)
    else Ok(match op
            case AndOp => And(left, right)
            case OrOp => Or(left, right)
            case XorOp => Xor(left, right))
  }

  /**
   * `~operand`: an inverted matcher, AlreadyChainedException on a chained
   * one, and Python's own `~` on a plain value (bitwise inversion of an int).
   */
  function Invert(operand: Pattern): (r: Result<Pattern, ExcKind>)
    ensures r == Err(AlreadyChainedException) <==> Chained(operand)
    ensures r.Ok? && !operand.Lit? ==> Chained(r.value)
    ensures r.Ok? && !operand.Lit? ==> forall v: Value :: Matches(operand, v).Answer? ==>
      Matches(r.value, v) == Answer(!Matches(operand, v).holds)
    ensures operand.Lit? && IsNumeric(operand.v) ==> r == Ok(Lit(IntV(-Num(operand.v) - 1)))
  {
    if Chained(operand) then Err(AlreadyChainedException)
    else if operand.Lit? then
      if IsNumeric(operand.v) then Ok(Lit(IntV(-Num(operand.v) - 1))) else Err(TypeError)
    else Ok(Inv(operand))
  }

  // ---------------------------------------------------------------------
  // Constructors of the public matchers (argument validation included)

  /** `AnyInt()`. */
  function NewAnyInt(): (r: Pattern)
    ensures forall v: Value :: Matches(r, v) == Answer(IsNumeric(v))
  {
    Rich(IntType, NoBounds)
  }

  /** `NotThisInt(ne)`: the argument must be an `int` (a `bool` is one). */
  function NewNotThisInt(ne: Value): (r: Result<Pattern, ExcKind>)
    ensures r.Err? <==> !IsNumeric(ne)
    ensures r.Err? ==> r.error == ValueError
    ensures r.Ok? ==> forall v: Value :: Matches(r.value, v) == Answer(IsNumeric(v) && Num(v) != Num(ne))
  {
    if !IsNumeric(ne) then Err(ValueError) else Ok(Rich(IntType, NoBounds.(ne := Some(Num(ne)))))
  }

  /** `IntBetween(lower, upper)`: inclusive at both ends. */
  function NewIntBetween(lower: Value, upper: Value): (r: Result<Pattern, ExcKind>)
    ensures r.Err? <==> !IsNumeric(lower) || !IsNumeric(upper)
    ensures r.Err? ==> r.error == ValueError
    ensures r.Ok? ==> forall v: Value ::
      Matches(r.value, v) == Answer(IsNumeric(v) && Num(lower) <= Num(v) <= Num(upper))
  {
    if !IsNumeric(lower) || !IsNumeric(upper) then Err(ValueError)
    else Ok(Rich(IntType, NoBounds.(ge := Some(Num(lower)), le := Some(Num(upper)))))
  }

  /** `IntGreaterThan(gt)`: strict. */
  function NewIntGreaterThan(gt: Value): (r: Result<Pattern, ExcKind>)
    ensures r.Err? <==> !IsNumeric(gt)
    ensures r.Err? ==> r.error == ValueError
    ensures r.Ok? ==> forall v: Value :: Matches(r.value, v) == Answer(IsNumeric(v) && Num(v) > Num(gt))
  {
    if !IsNumeric(gt) then Err(ValueError) else Ok(Rich(IntType, NoBounds.(gt := Some(Num(gt)))))
  }

  /** `IntGreaterOrEquals(ge)`. */
  function NewIntGreaterOrEquals(ge: Value): (r: Result<Pattern, ExcKind>)
    ensures r.Err? <==> !IsNumeric(ge)
    ensures r.Err? ==> r.error == ValueError
    ensures r.Ok? ==> forall v: Value :: Matches(r.value, v) == Answer(IsNumeric(v) && Num(v) >= Num(ge))
  {
    if !IsNumeric(ge) then Err(ValueError) else Ok(Rich(IntType, NoBounds.(ge := Some(Num(ge)))))
  }

  /** `IntLessThan(lt)`: strict. */
  function NewIntLessThan(lt: Value): (r: Result<Pattern, ExcKind>)
    ensures r.Err? <==> !IsNumeric(lt)
    ensures r.Err? ==> r.error == ValueError
    ensures r.Ok? ==> forall v: Value :: Matches(r.value, v) == Answer(IsNumeric(v) && Num(v) < Num(lt))
  {
    if !IsNumeric(lt) then Err(ValueError) else Ok(Rich(IntType, NoBounds.(lt := Some(Num(lt)))))
  }

  /** `IntLessOrEquals(le)`. */
  function NewIntLessOrEquals(le: Value): (r: Result<Pattern, ExcKind>)
    ensures r.Err? <==> !IsNumeric(le)
    ensures r.Err? ==> r.error == ValueError
    ensures r.Ok? ==> forall v: Value :: Matches(r.value, v) == Answer(IsNumeric(v) && Num(v) <= Num(le))
  {
    if !IsNumeric(le) then Err(ValueError) else Ok(Rich(IntType, NoBounds.(le := Some(Num(le)))))
  }

  /** `AnyStr()`, `AnyList()`, `AnyDict()` and `AnyInstanceOf(klass)`. */
  function NewAnyInstanceOf(klass: Value): (r: Result<Pattern, ExcKind>)
    ensures r.Err? <==> !IsClass(klass)
    ensures r.Err? ==> r.error == ValueError
    ensures r.Ok? ==> forall v: Value :: Matches(r.value, v) == Answer(InstanceOf(v, klass.t))
  {
    if !IsClass(klass) then Err(ValueError) else Ok(Rich(klass.t, NoBounds))
  }

  datatype StrTest = Containing | StartingWith | EndingWith

  /** `StrContaining(needle)`, `StrStartingWith(needle)`, `StrEndingWith(needle)`. */
  function NewStrMatcher(test: StrTest, needle: Value): (r: Result<Pattern, ExcKind>)
    ensures r.Err? <==> !needle.StrV?
    ensures r.Err? ==> r.error == ValueError
    ensures r.Ok? ==> forall v: Value :: Matches(r.value, v) == Answer(v.StrV? && match test
      case Containing => IsSubstring(needle.s, v.s)
      case StartingWith => IsPrefix(needle.s, v.s)
      case EndingWith => IsSuffix(needle.s, v.s))
  {
    if !needle.StrV? then Err(ValueError)
    else Ok(match test
            case Containing => StrContaining(needle.s)
            case StartingWith => StrStartingWith(needle.s)
            case EndingWith => StrEndingWith(needle.s))
  }

  /** `ListContainingAll(subset)`: the argument must be a list. */
  function NewListContainingAll(subset: Value): (r: Result<Pattern, ExcKind>)
    ensures r.Err? <==> !subset.ListV?
    ensures r.Err? ==> r.error == ValueError
    ensures r.Ok? ==> forall v: Value :: (Matches(r.value, v) ==
      Answer(v.ListV? && forall i :: 0 <= i < |subset.items| ==> ListHas(v.items, subset.items[i])))
  {
    if !subset.ListV? then Err(ValueError)
    else
      assert forall v: Value :: (Matches(ListContainingAll(subset.items), v) ==
        Answer(v.ListV? && forall i :: 0 <= i < |subset.items| ==> ListHas(v.items, subset.items[i]))) by {
        forall v: Value { ListContainingAllMeaning(subset.items, v); }
      }
      Ok(ListContainingAll(subset.items))
  }

  lemma ListContainingAllMeaning(xs: seq<Value>, v: Value)
    ensures Matches(ListContainingAll(xs), v) ==
      Answer(v.ListV? && forall i :: 0 <= i < |xs| ==> ListHas(v.items, xs[i]))
  {
    if v.ListV? { AllInList(xs, v.items); }
  }

  /** `DictContainingKeys(expected_keys)`: the argument must be a list. */
  function NewDictContainingKeys(expected: Value): (r: Result<Pattern, ExcKind>)
    ensures r.Err? <==> !expected.ListV?
    ensures r.Err? ==> r.error == ValueError
    ensures r.Ok? ==> forall v: Value :: !v.DictV? ==> Matches(r.value, v) == Answer(false)
    ensures r.Ok? && (forall i :: 0 <= i < |expected.items| ==> Hashable(expected.items[i])) ==>
      forall v: Value :: v.DictV? ==> (Matches(r.value, v) ==
        Answer(forall i :: 0 <= i < |expected.items| ==> KeyOf(expected.items[i]) in v.entries))
  {
    if !expected.ListV? then Err(ValueError)
    else
      var ks := expected.items;
      assert (forall i :: 0 <= i < |ks| ==> Hashable(ks[i])) ==>
        forall v: Value :: v.DictV? ==> AllIn(ks, v) == Answer(forall i :: 0 <= i < |ks| ==> KeyOf(ks[i]) in v.entries) by {
        if forall i :: 0 <= i < |ks| ==> Hashable(ks[i]) {
          forall v: Value | v.DictV? { AllInDict(ks, v); }
        }
      }
      Ok(DictContainingKeys(ks))
  }

  /**
   * A dict as Python builds one: hashable keys, no two of them `==`, and
   * the mapping filed under exactly the slots of those keys.
   */
  ghost predicate WellFormedDict(d: Value)
  {
    d.DictV? && (forall i :: 0 <= i < |d.keys| ==> Hashable(d.keys[i])) &&
    (forall i, j :: 0 <= i < j < |d.keys| ==> KeyOf(d.keys[i]) != KeyOf(d.keys[j])) &&
    (forall k :: k in d.entries <==> exists i :: 0 <= i < |d.keys| && KeyOf(d.keys[i]) == k)
  }

  /** `k in d` finds a key by `==`: the slot of `k` is filled iff some key of `d` is `==` to `k`. */
  lemma DictLookupByEquality(d: Value, k: Value)
    requires WellFormedDict(d) && Hashable(k)
    ensures KeyOf(k) in d.entries <==> exists j :: 0 <= j < |d.keys| && PyEq(d.keys[j], k)
  {
    forall j | 0 <= j < |d.keys| ensures KeyOf(d.keys[j]) == KeyOf(k) <==> PyEq(d.keys[j], k) {
      KeyOfIsEquality(d.keys[j], k);
    }
  }

  /** `DictSupersetOf(subset)`: the argument must be a dict. */
  function NewDictSupersetOf(subset: Value): (r: Result<Pattern, ExcKind>)
    ensures r.Err? <==> !subset.DictV?
    ensures r.Err? ==> r.error == ValueError
    ensures r.Ok? && WellFormedDict(subset) ==> forall v: Value :: (Matches(r.value, v) ==
      Answer(v.DictV? && forall k :: k in subset.entries ==> k in v.entries && PyEq(v.entries[k], subset.entries[k])))
  {
    if !subset.DictV? then Err(ValueError)
    else
      var p := DictSupersetOf(subset.keys, subset.entries);
      assert WellFormedDict(subset) ==> forall v: Value :: (Matches(p, v) ==
        Answer(v.DictV? && forall k :: k in subset.entries ==> k in v.entries && PyEq(v.entries[k], subset.entries[k]))) by {
        if WellFormedDict(subset) {
          forall v: Value { DictSupersetOfMeaning(subset, v); }
        }
      }
      Ok(p)
  }

  /**
   * `DictContainingKeys` in Python terms: it holds on a dict iff each
   * expected key is `==` to some key of the dict.
   */
  lemma DictContainingKeysByEquality(ks: seq<Value>, v: Value)
    requires WellFormedDict(v)
    requires forall i :: 0 <= i < |ks| ==> Hashable(ks[i])
    ensures Matches(DictContainingKeys(ks), v) ==
      Answer(forall i :: 0 <= i < |ks| ==> exists j :: 0 <= j < |v.keys| && PyEq(v.keys[j], ks[i]))
  {
    AllInDict(ks, v);
    forall i | 0 <= i < |ks| ensures KeyOf(ks[i]) in v.entries <==> exists j :: 0 <= j < |v.keys| && PyEq(v.keys[j], ks[i]) {
      DictLookupByEquality(v, ks[i]);
    }
  }

  /** `True` and `1` are one dict key for the dict matchers and for dict `==`. */
  lemma BoolKeyIsIntKey()
    ensures Matches(DictContainingKeys([BoolV(true)]), DictV([IntV(1)], map[IntV(1) := StrV("a")])) == Answer(true)
    ensures Matches(DictSupersetOf([IntV(1)], map[IntV(1) := StrV("a")]),
                    DictV([BoolV(true)], map[KeyOf(BoolV(true)) := StrV("a")])) == Answer(true)
    ensures PyEq(DictV([IntV(1)], map[IntV(1) := StrV("a")]), DictV([BoolV(true)], map[KeyOf(BoolV(true)) := StrV("a")]))
  {
  }

  lemma DictSupersetOfMeaning(subset: Value, v: Value)
    requires WellFormedDict(subset)
    ensures Matches(DictSupersetOf(subset.keys, subset.entries), v) ==
      Answer(v.DictV? && forall k :: k in subset.entries ==> k in v.entries && PyEq(v.entries[k], subset.entries[k]))
  {
    if v.DictV? { SupersetOfAll(subset.keys, subset.entries, v.entries); }
  }

  /** `AnyContainingAll(subset)` and `IterableWithElements(elements)` snapshot `list(arg)`. */
  function NewAnyContainingAll(subset: Value): (r: Result<Pattern, ExcKind>)
    ensures r.Err? <==> !Iterable(subset)
    ensures r.Err? ==> r.error == TypeError
    ensures r.Ok? ==> forall v: Value :: Matches(r.value, v) == AllIn(Elements(subset), v)
    ensures r.Ok? && subset.ListV? ==> forall v: Value :: v.ListV? ==> (Matches(r.value, v) ==
      Answer(forall i :: 0 <= i < |subset.items| ==> ListHas(v.items, subset.items[i])))
  {
    if !Iterable(subset) then Err(TypeError)
    else
      assert subset.ListV? ==> forall v: Value :: v.ListV? ==> (AllIn(subset.items, v) ==
        Answer(forall i :: 0 <= i < |subset.items| ==> ListHas(v.items, subset.items[i]))) by {
        if subset.ListV? { forall v: Value | v.ListV? { AllInList(subset.items, v.items); } }
      }
      Ok(AnyContainingAll(Elements(subset)))
  }

  function NewIterableWithElements(elements: Value): (r: Result<Pattern, ExcKind>)
    ensures r.Err? <==> !Iterable(elements)
    ensures r.Err? ==> r.error == TypeError
    ensures r.Ok? ==> forall v: Value :: !Iterable(v) ==> Matches(r.value, v) == Raises(TypeError)
    ensures r.Ok? ==> forall v: Value :: Iterable(v) ==> (Matches(r.value, v) ==
      Answer(|Elements(elements)| == |Elements(v)| &&
             forall i :: 0 <= i < |Elements(v)| ==> PyEq(Elements(elements)[i], Elements(v)[i])))
  {
    if !Iterable(elements) then Err(TypeError) else Ok(IterableWithElements(Elements(elements)))
  }

  // ---------------------------------------------------------------------
  // Lemmas

  lemma {:induction false} AllInList(xs: seq<Value>, items: seq<Value>)
    ensures AllIn(xs, ListV(items)) == Answer(forall i :: 0 <= i < |xs| ==> ListHas(items, xs[i]))
    decreases |xs|
  {
    if xs != [] {
      AllInList(xs[1..], items);
      assert forall i :: 0 < i < |xs| ==> xs[i] == xs[1..][i - 1];
    }
  }

  lemma {:induction false} AllInDict(ks: seq<Value>, d: Value)
    requires d.DictV?
    requires forall i :: 0 <= i < |ks| ==> Hashable(ks[i])
    ensures AllIn(ks, d) == Answer(forall i :: 0 <= i < |ks| ==> KeyOf(ks[i]) in d.entries)
    decreases |ks|
  {
    if ks != [] {
      AllInDict(ks[1..], d);
      assert forall i :: 0 < i < |ks| ==> ks[i] == ks[1..][i - 1];
    }
  }

  lemma {:induction false} SupersetOfAll(ks: seq<Value>, subset: map<Value, Value>, other: map<Value, Value>)
    requires forall i :: 0 <= i < |ks| ==> Hashable(ks[i])
    requires forall i, j :: 0 <= i < j < |ks| ==> KeyOf(ks[i]) != KeyOf(ks[j])
    requires forall k :: k in subset <==> exists i :: 0 <= i < |ks| && KeyOf(ks[i]) == k
    ensures SupersetOf(ks, subset, other) ==
      Answer(forall k :: k in subset ==> k in other && PyEq(other[k], subset[k]))
    decreases |ks|
  {
    if ks != [] {
      var slot := KeyOf(ks[0]);
      var rest := subset - {slot};
      assert forall i :: 0 < i < |ks| ==> ks[i] == ks[1..][i - 1];
      assert forall k' :: k' in rest <==> exists i :: 0 <= i < |ks[1..]| && KeyOf(ks[1..][i]) == k' by {
        forall k' ensures k' in rest <==> exists i :: 0 <= i < |ks[1..]| && KeyOf(ks[1..][i]) == k' {
          if k' in rest {
            var i :| 0 <= i < |ks| && KeyOf(ks[i]) == k';
            assert i != 0;
            assert KeyOf(ks[1..][i - 1]) == k';
          }
        }
      }
      SupersetOfAll(ks[1..], rest, other);
      assert SupersetOf(ks[1..], subset, other) == SupersetOf(ks[1..], rest, other) by {
        SupersetOfFrame(ks[1..], subset, rest, other);
      }
    }
  }

  lemma {:induction false} SupersetOfFrame(ks: seq<Value>, s1: map<Value, Value>, s2: map<Value, Value>, other: map<Value, Value>)
    requires forall i :: 0 <= i < |ks| ==> KeyOf(ks[i]) in s1 && KeyOf(ks[i]) in s2 && s1[KeyOf(ks[i])] == s2[KeyOf(ks[i])]
    ensures SupersetOf(ks, s1, other) == SupersetOf(ks, s2, other)
    decreases |ks|
  {
    if ks != [] {
      assert forall i :: 0 < i < |ks| ==> ks[i] == ks[1..][i - 1];
      SupersetOfFrame(ks[1..], s1, s2, other);
    }
  }

  /** The "Xor" combinator is logical equivalence, raising iff either side raises. */
  lemma XorIsEquivalence(a: Pattern, b: Pattern, v: Value)
    ensures Matches(Xor(a, b), v) ==
      if Matches(a, v).Raises? then Matches(a, v)
      else if Matches(b, v).Raises? then Matches(b, v)
      else Answer(Matches(a, v).holds == Matches(b, v).holds)
  {
  }

  /** EmptyList/NotEmptyList are false off a list and split the lists in two; likewise the dict pair. */
  lemma ContainerEmptiness(v: Value)
    ensures !v.ListV? ==> Matches(EmptyList, v) == Answer(false) && Matches(NotEmptyList, v) == Answer(false)
    ensures v.ListV? ==> Matches(EmptyList, v) == Answer(!Matches(NotEmptyList, v).holds)
    ensures !v.DictV? ==> Matches(EmptyDict, v) == Answer(false) && Matches(NotEmptyDict, v) == Answer(false)
    ensures v.DictV? ==> Matches(EmptyDict, v) == Answer(!Matches(NotEmptyDict, v).holds)
  {
    assert Matches(EmptyList, v) == Answer(v.ListV? && |v.items| == 0);
    assert Matches(NotEmptyList, v) == Answer(v.ListV? && |v.items| > 0);
    assert Matches(EmptyDict, v) == Answer(v.DictV? && |v.entries| == 0);
    assert Matches(NotEmptyDict, v) == Answer(v.DictV? && |v.entries| > 0);
  }

  /** AnyEmpty/AnyNotEmpty split every sized value in two and raise TypeError on the rest. */
  lemma SizedEmptiness(v: Value)
    ensures !Sized(v) ==> Matches(AnyEmpty, v) == Raises(TypeError) && Matches(AnyNotEmpty, v) == Raises(TypeError)
    ensures Sized(v) ==> Matches(AnyNotEmpty, v).Answer? && Matches(AnyEmpty, v) == Answer(!Matches(AnyNotEmpty, v).holds)
  {
    assert Matches(AnyEmpty, v) == if Sized(v) then Answer(Len(v) == 0) else Raises(TypeError);
    assert Matches(AnyNotEmpty, v) == if Sized(v) then Answer(Len(v) != 0) else Raises(TypeError);
  }

  /** `Any()` matches everything; AnyTruthy and AnyFalsey split every value by its truthiness. */
  lemma TruthinessMatchers(v: Value)
    ensures Matches(Anything, v) == Answer(true)
    ensures Matches(AnyTruthy, v) == Answer(Truthy(v)) && Matches(AnyFalsey, v) == Answer(!Truthy(v))
  {
  }

  /** On a list, the generic containment matchers agree with the list ones; off a list, the list ones are false. */
  lemma ContainingAgreesOnLists(n: Value, xs: seq<Value>, v: Value)
    ensures v.ListV? ==> Matches(AnyContaining(n), v) == Matches(ListContaining(n), v)
    ensures v.ListV? ==> Matches(AnyContainingAll(xs), v) == Matches(ListContainingAll(xs), v)
    ensures !v.ListV? ==> Matches(ListContaining(n), v) == Answer(false) && Matches(ListContainingAll(xs), v) == Answer(false)
  {
  }

  /** Patterns whose comparison can never raise. */
  predicate Safe(p: Pattern)
  {
    match p
    case Rich(klass, b) => klass == IntType || klass == BoolType ||
      (b.lt.None? && b.le.None? && b.ge.None? && b.gt.None?)
    case DictContainingKeys(ks) => forall i :: 0 <= i < |ks| ==> Hashable(ks[i])
    case DictSupersetOf(ks, _) => forall i :: 0 <= i < |ks| ==> Hashable(ks[i])
    case AnyContaining(_) => false
    case AnyContainingAll(xs) => xs == []
    case IterableWithElements(_) => false
    case AnyNotEmpty => false
    case AnyEmpty => false
    case And(a, b) => Safe(a) && Safe(b)
    case Or(a, b) => Safe(a) && Safe(b)
    case Xor(a, b) => Safe(a) && Safe(b)
    case Inv(m) => Safe(m)
    case _ => true
  }

  lemma {:induction false} SafeNeverRaises(p: Pattern, v: Value)
    requires Safe(p)
    ensures Matches(p, v).Answer?
  {
    match p
    case Rich(klass, b) =>
    case ListContainingAll(xs) => if v.ListV? { AllInList(xs, v.items); }
    case DictContainingKeys(ks) => if v.DictV? { AllInDict(ks, v); }
    case DictSupersetOf(ks, sub) => if v.DictV? { SupersetOfSafe(ks, sub, v.entries); }
    case And(a, b) => SafeNeverRaises(a, v); SafeNeverRaises(b, v);
    case Or(a, b) => SafeNeverRaises(a, v); SafeNeverRaises(b, v);
    case Xor(a, b) => SafeNeverRaises(a, v); SafeNeverRaises(b, v);
    case Inv(m) => SafeNeverRaises(m, v);
    case _ =>
  }

  lemma {:induction false} SupersetOfSafe(ks: seq<Value>, subset: map<Value, Value>, other: map<Value, Value>)
    requires forall i :: 0 <= i < |ks| ==> Hashable(ks[i])
    ensures SupersetOf(ks, subset, other).Answer?
    decreases |ks|
  {
    if ks != [] {
      assert forall i :: 0 < i < |ks| ==> ks[i] == ks[1..][i - 1];
      SupersetOfSafe(ks[1..], subset, other);
    }
  }

  /**
   * The chaining rule: the result of any combination refuses every further
   * combination, but a combination may still appear as a right operand.
   */
  lemma ChainOnlyOnce(op1: Op, op2: Op, a: Pattern, b: Pattern, c: Pattern)
    requires !Chained(a) && !a.Lit?
    ensures Combine(op1, a, b).Ok?
    ensures Combine(op2, Combine(op1, a, b).value, c) == Err(AlreadyChainedException)
    ensures Invert(Combine(op1, a, b).value) == Err(AlreadyChainedException)
    ensures !Chained(c) && !c.Lit? ==> Combine(op2, c, Combine(op1, a, b).value).Ok?
  {
  }
}
