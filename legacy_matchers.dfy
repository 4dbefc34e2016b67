/**
 * The older copy of the matcher algebra, testslide/matchers.py.
 *
 * It has the combinators, the int, string, list and dict matchers and the
 * generic ones, but none of the iterable matchers of testslide/core/matchers.py,
 * and its list and dict matchers name their type through `typing.List` and
 * `typing.Dict` (for which `isinstance` answers as for `list` and `dict`).
 * `Matches` follows this file's own `__eq__` bodies (the type test of
 * `_RichComparison` followed by the specific test); `AgreesWithCore` shows
 * that every legacy matcher compares exactly like its counterpart in module
 * Matchers.
 */
module LegacyMatchers {
  import opened Values
  import Matchers

  type Verdict = Matchers.Verdict

  datatype LegacyPattern =
    | Lit(v: Value)
    | Rich(klass: PyType, bounds: Matchers.Bounds)
    | StrContaining(text: string)
    | StrStartingWith(prefix: string)
    | StrEndingWith(suffix: string)
    | ListContaining(item: Value)
    | ListContainingAll(subset: seq<Value>)
    | NotEmptyList
    | EmptyList
    | NotEmptyDict
    | EmptyDict
    | DictContainingKeys(expectedKeys: seq<Value>)
    | DictSupersetOf(subsetKeys: seq<Value>, subsetMap: map<Value, Value>)
    | Any
    | AnyTruthy
    | AnyFalsey
    | And(a: LegacyPattern, b: LegacyPattern)
    | Or(a: LegacyPattern, b: LegacyPattern)
    | Xor(a: LegacyPattern, b: LegacyPattern)
    | Inv(m: LegacyPattern)

  predicate Chained(p: LegacyPattern)
  {
    p.And? || p.Or? || p.Xor? || p.Inv?
  }

  /** `_RichComparison.__eq__` with no bounds: the type test alone. */
  function TypeTest(klass: PyType, other: Value): Verdict
  {
    Matchers.RichCompare(klass, Matchers.NoBounds, other)
  }

  /** `pattern == other`, as this file's `__eq__` methods compute it. */
  function Matches(p: LegacyPattern, other: Value): Verdict
  {
    match p
    case Lit(v) => Matchers.Answer(PyEq(v, other))
    case Rich(klass, b) => Matchers.RichCompare(klass, b, other)
    case StrContaining(n) => Matchers.Answer(other.StrV? && IsSubstring(n, other.s))
    case StrStartingWith(n) => Matchers.Answer(other.StrV? && IsPrefix(n, other.s))
    case StrEndingWith(n) => Matchers.Answer(other.StrV? && IsSuffix(n, other.s))
    case ListContaining(n) =>
      Matchers.AndThen(TypeTest(ListType, other), Matchers.Contains(other, n))
    case ListContainingAll(xs) =>
      Matchers.AndThen(TypeTest(ListType, other), Matchers.AllIn(xs, other))
    case NotEmptyList => Matchers.AndThen(TypeTest(ListType, other), Matchers.Answer(Truthy(other)))
    case EmptyList => Matchers.AndThen(TypeTest(ListType, other), Matchers.Answer(!Truthy(other)))
    case NotEmptyDict => Matchers.AndThen(TypeTest(DictType, other), Matchers.Answer(Truthy(other)))
    case EmptyDict => Matchers.AndThen(TypeTest(DictType, other), Matchers.Answer(!Truthy(other)))
    case DictContainingKeys(ks) =>
      Matchers.AndThen(TypeTest(DictType, other), Matchers.AllIn(ks, other))
    case DictSupersetOf(ks, sub) =>
      // a missing key raises KeyError inside `all(...)`, which is caught as False
      Matchers.AndThen(TypeTest(DictType, other),
        if other.DictV? then Matchers.SupersetOf(ks, sub, other.entries) else Matchers.Answer(false))
    case Any => Matchers.Answer(true)
    case AnyTruthy => Matchers.Answer(Truthy(other))
    case AnyFalsey => Matchers.Answer(!Truthy(other))
    case And(a, b) => Matchers.AndThen(Matches(a, other), Matches(b, other))
    case Or(a, b) => Matchers.OrElse(Matches(a, other), Matches(b, other))
    case Xor(a, b) =>
      var ma, mb := Matches(a, other), Matches(b, other);
      Matchers.AndThen(Matchers.OrElse(ma, Matchers.Not(mb)), Matchers.OrElse(Matchers.Not(ma), mb))
    case Inv(m) => Matchers.Not(Matches(m, other))
  }

  /** The matcher of testslide/core/matchers.py built from the same class and arguments. */
  function Embed(p: LegacyPattern): (r: Matchers.Pattern)
    ensures Matchers.Chained(r) <==> Chained(p)
    ensures r.Lit? <==> p.Lit?
  {
    match p
    case Lit(v) => Matchers.Lit(v)
    case Rich(klass, b) => Matchers.Rich(klass, b)
    case StrContaining(n) => Matchers.StrContaining(n)
    case StrStartingWith(n) => Matchers.StrStartingWith(n)
    case StrEndingWith(n) => Matchers.StrEndingWith(n)
    case ListContaining(n) => Matchers.ListContaining(n)
    case ListContainingAll(xs) => Matchers.ListContainingAll(xs)
    case NotEmptyList => Matchers.NotEmptyList
    case EmptyList => Matchers.EmptyList
    case NotEmptyDict => Matchers.NotEmptyDict
    case EmptyDict => Matchers.EmptyDict
    case DictContainingKeys(ks) => Matchers.DictContainingKeys(ks)
    case DictSupersetOf(ks, sub) => Matchers.DictSupersetOf(ks, sub)
    case Any => Matchers.Anything
    case AnyTruthy => Matchers.AnyTruthy
    case AnyFalsey => Matchers.AnyFalsey
    case And(a, b) => Matchers.And(Embed(a), Embed(b))
    case Or(a, b) => Matchers.Or(Embed(a), Embed(b))
    case Xor(a, b) => Matchers.Xor(Embed(a), Embed(b))
    case Inv(m) => Matchers.Inv(Embed(m))
  }

  function Lift(r: Result<LegacyPattern, ExcKind>): Result<Matchers.Pattern, ExcKind>
  {
    match r
    case Ok(p) => Ok(Embed(p))
    case Err(e) => Err(e)
  }

  /** Every legacy matcher compares exactly like the core matcher with the same class and arguments. */
  lemma {:induction false} AgreesWithCore(p: LegacyPattern, v: Value)
    ensures Matches(p, v) == Matchers.Matches(Embed(p), v)
  {
    if p.Inv? {
      AgreesWithCore(p.m, v);
      InvAgrees(p, v);
    } else if Chained(p) {
      AgreesWithCore(p.a, v);
      AgreesWithCore(p.b, v);
      BinaryAgrees(p, v);
    } else if p.ListContaining? || p.ListContainingAll? || p.NotEmptyList? || p.EmptyList? {
      ListMatcherAgrees(p, v);
    } else if p.NotEmptyDict? || p.EmptyDict? || p.DictContainingKeys? || p.DictSupersetOf? {
      DictMatcherAgrees(p, v);
    } else {
      PlainMatcherAgrees(p, v);
    }
  }

  lemma BinaryAgrees(p: LegacyPattern, v: Value)
    requires p.And? || p.Or? || p.Xor?
    requires Matches(p.a, v) == Matchers.Matches(Embed(p.a), v)
    requires Matches(p.b, v) == Matchers.Matches(Embed(p.b), v)
    ensures Matches(p, v) == Matchers.Matches(Embed(p), v)
  {
  }

  lemma InvAgrees(p: LegacyPattern, v: Value)
    requires p.Inv?
    requires Matches(p.m, v) == Matchers.Matches(Embed(p.m), v)
    ensures Matches(p, v) == Matchers.Matches(Embed(p), v)
  {
  }

  lemma PlainMatcherAgrees(p: LegacyPattern, v: Value)
    requires p.Lit? || p.Rich? || p.StrContaining? || p.StrStartingWith? || p.StrEndingWith?
      || p.Any? || p.AnyTruthy? || p.AnyFalsey?
    ensures Matches(p, v) == Matchers.Matches(Embed(p), v)
  {
  }

  lemma ListMatcherAgrees(p: LegacyPattern, v: Value)
    requires p.ListContaining? || p.ListContainingAll? || p.NotEmptyList? || p.EmptyList?
    ensures Matches(p, v) == Matchers.Matches(Embed(p), v)
  {
    assert TypeTest(ListType, v) == Matchers.Answer(v.ListV?);
  }

  lemma DictMatcherAgrees(p: LegacyPattern, v: Value)
    requires p.NotEmptyDict? || p.EmptyDict? || p.DictContainingKeys? || p.DictSupersetOf?
    ensures Matches(p, v) == Matchers.Matches(Embed(p), v)
  {
    assert TypeTest(DictType, v) == Matchers.Answer(v.DictV?);
  }

  /** `left & right`, `left | right`, `left ^ right`: a chained left operand raises. */
  function Combine(op: Matchers.Op, left: LegacyPattern, right: LegacyPattern): (r: Result<LegacyPattern, ExcKind>)
    requires !(left.Lit? && right.Lit?)
    ensures r == Err(AlreadyChainedException) <==> Chained(left)
    ensures r.Ok? ==> Chained(r.value)
    ensures Lift(r) == Matchers.Combine(op, Embed(left), Embed(right))
  {
    if Chained(left) then Err(AlreadyChainedException)
    else if left.Lit? then Err(TypeError)
    else Ok(match op
            case AndOp => And(left, right)
            case OrOp => Or(left, right)
            case XorOp => Xor(left, right))
  }

  /** `~operand`. */
  function Invert(operand: LegacyPattern): (r: Result<LegacyPattern, ExcKind>)
    ensures r == Err(AlreadyChainedException) <==> Chained(operand)
    ensures Lift(r) == Matchers.Invert(Embed(operand))
  {
    if Chained(operand) then Err(AlreadyChainedException)
    else if operand.Lit? then
      if IsNumeric(operand.v) then Ok(Lit(IntV(-Num(operand.v) - 1))) else Err(TypeError)
    else Ok(Inv(operand))
  }

  /**
   * And, Or and Inv are conjunction, disjunction and negation of the
   * components' answers, and "Xor" is their equivalence.
   */
  lemma CombinatorMeaning(op: Matchers.Op, a: LegacyPattern, b: LegacyPattern, v: Value)
    requires !Chained(a) && !a.Lit?
    requires Matches(a, v).Answer? && Matches(b, v).Answer?
    ensures var x, y := Matches(a, v).holds, Matches(b, v).holds;
      Combine(op, a, b).Ok? &&
      Matches(Combine(op, a, b).value, v) ==
        Matchers.Answer(match op case AndOp => x && y case OrOp => x || y case XorOp => x == y)
  {
    match op
    case AndOp => assert Combine(op, a, b) == Ok(And(a, b)); BinaryMeaning(And(a, b), v);
    case OrOp => assert Combine(op, a, b) == Ok(Or(a, b)); BinaryMeaning(Or(a, b), v);
    case XorOp => assert Combine(op, a, b) == Ok(Xor(a, b)); BinaryMeaning(Xor(a, b), v);
  }

  /** The answer of a two-operand combination, from its operands' answers. */
  lemma BinaryMeaning(c: LegacyPattern, v: Value)
    requires c.And? || c.Or? || c.Xor?
    requires Matches(c.a, v).Answer? && Matches(c.b, v).Answer?
    ensures var x, y := Matches(c.a, v).holds, Matches(c.b, v).holds;
      Matches(c, v) == Matchers.Answer(if c.And? then x && y else if c.Or? then x || y else x == y)
  {
  }

  /** `~m` answers the negation of `m`'s answer. */
  lemma InvertMeaning(a: LegacyPattern, v: Value)
    requires !Chained(a) && !a.Lit?
    requires Matches(a, v).Answer?
    ensures Invert(a).Ok? && Matches(Invert(a).value, v) == Matchers.Answer(!Matches(a, v).holds)
  {
    assert Invert(a).value == Inv(a);
  }

  /** A combination refuses every further `&`, `|`, `^` and `~`. */
  lemma ChainOnlyOnce(op1: Matchers.Op, op2: Matchers.Op, a: LegacyPattern, b: LegacyPattern, c: LegacyPattern)
    requires !Chained(a) && !a.Lit?
    ensures Combine(op1, a, b).Ok?
    ensures Combine(op2, Combine(op1, a, b).value, c) == Err(AlreadyChainedException)
    ensures Invert(Combine(op1, a, b).value) == Err(AlreadyChainedException)
  {
  }

  // ---------------------------------------------------------------------
  // Constructors (argument validation included)

  /** `NotThisInt(ne)`: the argument must be an `int`. */
  function NewNotThisInt(ne: Value): (r: Result<LegacyPattern, ExcKind>)
    ensures r.Err? <==> !IsNumeric(ne)
    ensures r.Err? ==> r.error == ValueError
    ensures r.Ok? ==> forall v: Value :: Matches(r.value, v) == Matchers.Answer(IsNumeric(v) && Num(v) != Num(ne))
  {
    if !IsNumeric(ne) then Err(ValueError)
    else Ok(Rich(IntType, Matchers.NoBounds.(ne := Some(Num(ne)))))
  }

  /** `IntBetween(lower, upper)`: inclusive at both ends. */
  function NewIntBetween(lower: Value, upper: Value): (r: Result<LegacyPattern, ExcKind>)
    ensures r.Err? <==> !IsNumeric(lower) || !IsNumeric(upper)
    ensures r.Err? ==> r.error == ValueError
    ensures r.Ok? ==> forall v: Value ::
      Matches(r.value, v) == Matchers.Answer(IsNumeric(v) && Num(lower) <= Num(v) <= Num(upper))
  {
    if !IsNumeric(lower) || !IsNumeric(upper) then Err(ValueError)
    else Ok(Rich(IntType, Matchers.NoBounds.(ge := Some(Num(lower)), le := Some(Num(upper)))))
  }

  /** `IntGreaterThan`, `IntGreaterOrEquals`, `IntLessThan`, `IntLessOrEquals`. */
  function NewIntComparison(op: Matchers.Order, bound: Value): (r: Result<LegacyPattern, ExcKind>)
    ensures r.Err? <==> !IsNumeric(bound)
    ensures r.Err? ==> r.error == ValueError
    ensures r.Ok? ==> forall v: Value :: Matches(r.value, v) == Matchers.Answer(IsNumeric(v) && match op
      case Lt => Num(v) < Num(bound)
      case Le => Num(v) <= Num(bound)
      case Ge => Num(v) >= Num(bound)
      case Gt => Num(v) > Num(bound))
  {
    if !IsNumeric(bound) then Err(ValueError)
    else
      var n := Some(Num(bound));
      Ok(Rich(IntType, match op
        case Lt => Matchers.NoBounds.(lt := n)
        case Le => Matchers.NoBounds.(le := n)
        case Ge => Matchers.NoBounds.(ge := n)
        case Gt => Matchers.NoBounds.(gt := n)))
  }

  /** `StrContaining`, `StrStartingWith`, `StrEndingWith`: the needle must be a `str`. */
  function NewStrMatcher(test: Matchers.StrTest, needle: Value): (r: Result<LegacyPattern, ExcKind>)
    ensures r.Err? <==> !needle.StrV?
    ensures r.Err? ==> r.error == ValueError
    ensures r.Ok? ==> forall v: Value :: Matches(r.value, v) == Matchers.Answer(v.StrV? && match test
      case Containing => IsSubstring(needle.s, v.s)
      case StartingWith => IsPrefix(needle.s, v.s)
      case EndingWith => IsSuffix(needle.s, v.s))
  {
    if !needle.StrV? then Err(ValueError)
    else Ok(match test
            case Containing => StrContaining(needle.s)
            case StartingWith => StrStartingWith(needle.s)
            case EndingWith => StrEndingWith(needle.s))
  }

  /** `ListContainingAll(subset)`: the argument must be a list. */
  function NewListContainingAll(subset: Value): (r: Result<LegacyPattern, ExcKind>)
    ensures r.Err? <==> !subset.ListV?
    ensures r.Err? ==> r.error == ValueError
    ensures r.Ok? ==> forall v: Value :: (Matches(r.value, v) ==
      Matchers.Answer(v.ListV? && forall i :: 0 <= i < |subset.items| ==> ListHas(v.items, subset.items[i])))
  {
    if !subset.ListV? then Err(ValueError)
    else
      var p := ListContainingAll(subset.items);
      assert forall v: Value :: Matches(p, v) == Matchers.Matches(Embed(p), v) by {
        forall v: Value { AgreesWithCore(p, v); }
      }
      assert Matchers.NewListContainingAll(subset) == Ok(Embed(p));
      Ok(p)
  }

  /** `DictContainingKeys(expected_keys)`: the argument must be a list. */
  function NewDictContainingKeys(expected: Value): (r: Result<LegacyPattern, ExcKind>)
    ensures r.Err? <==> !expected.ListV?
    ensures r.Err? ==> r.error == ValueError
    ensures r.Ok? ==> forall v: Value :: !v.DictV? ==> Matches(r.value, v) == Matchers.Answer(false)
    ensures r.Ok? && (forall i :: 0 <= i < |expected.items| ==> Hashable(expected.items[i])) ==>
      forall v: Value :: v.DictV? ==> (Matches(r.value, v) ==
        Matchers.Answer(forall i :: 0 <= i < |expected.items| ==> KeyOf(expected.items[i]) in v.entries))
  {
    if !expected.ListV? then Err(ValueError)
    else
      var p := DictContainingKeys(expected.items);
      assert forall v: Value :: Matches(p, v) == Matchers.Matches(Embed(p), v) by {
        forall v: Value { AgreesWithCore(p, v); }
      }
      assert Matchers.NewDictContainingKeys(expected) == Ok(Embed(p));
      Ok(p)
  }

  /** `DictSupersetOf(subset)`: the argument must be a dict. */
  function NewDictSupersetOf(subset: Value): (r: Result<LegacyPattern, ExcKind>)
    ensures r.Err? <==> !subset.DictV?
    ensures r.Err? ==> r.error == ValueError
    ensures r.Ok? && Matchers.WellFormedDict(subset) ==> forall v: Value :: (Matches(r.value, v) ==
      Matchers.Answer(v.DictV? && forall k :: k in subset.entries ==> k in v.entries && PyEq(v.entries[k], subset.entries[k])))
  {
    if !subset.DictV? then Err(ValueError)
    else
      var p := DictSupersetOf(subset.keys, subset.entries);
      assert forall v: Value :: Matches(p, v) == Matchers.Matches(Embed(p), v) by {
        forall v: Value { AgreesWithCore(p, v); }
      }
      assert Matchers.NewDictSupersetOf(subset) == Ok(Embed(p));
      Ok(p)
  }

  /** `AnyInstanceOf(klass)`: the argument must be a type. */
  function NewAnyInstanceOf(klass: Value): (r: Result<LegacyPattern, ExcKind>)
    ensures r.Err? <==> !IsClass(klass)
    ensures r.Err? ==> r.error == ValueError
    ensures r.Ok? ==> forall v: Value :: Matches(r.value, v) == Matchers.Answer(InstanceOf(v, klass.t))
  {
    if !IsClass(klass) then Err(ValueError) else Ok(Rich(klass.t, Matchers.NoBounds))
  }

  /** `EmptyList()`, `NotEmptyList()`, `EmptyDict()`, `NotEmptyDict()`: the container type, then zero or non-zero size. */
  lemma EmptinessMatchers(v: Value)
    ensures Matches(EmptyList, v) == Matchers.Answer(v.ListV? && |v.items| == 0)
    ensures Matches(NotEmptyList, v) == Matchers.Answer(v.ListV? && |v.items| != 0)
    ensures Matches(EmptyDict, v) == Matchers.Answer(v.DictV? && |v.entries| == 0)
    ensures Matches(NotEmptyDict, v) == Matchers.Answer(v.DictV? && |v.entries| != 0)
  {
    assert TypeTest(ListType, v) == Matchers.Answer(v.ListV?);
    assert TypeTest(DictType, v) == Matchers.Answer(v.DictV?);
  }

  /** `Any()` always matches; `AnyTruthy()` and `AnyFalsey()` follow `bool(other)`. */
  lemma GenericMatchers(v: Value)
    ensures Matches(Any, v) == Matchers.Answer(true)
    ensures Matches(AnyTruthy, v) == Matchers.Answer(Truthy(v))
    ensures Matches(AnyFalsey, v) == Matchers.Answer(!Truthy(v))
  {
  }
}
