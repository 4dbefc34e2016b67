/**
 * Python values as the mocking engine sees them.
 *
 * Only the distinctions the engine's code branches on are kept: the builtin
 * scalar and container types (with `bool` a subclass of `int`), functions,
 * classes, instances of user classes, the descriptor objects that live in
 * class dictionaries (staticmethod, classmethod, property and the engine's
 * own per-instance proxy) and exception instances.
 */
module Values {

  type Name = string

  datatype Option<T> = None | Some(value: T)

  datatype Result<T, E> = Ok(value: T) | Err(error: E)

  /** Exception classes the modelled code raises or inspects. */
  datatype ExcKind =
    | ValueError
    | TypeError
    | AttributeError
    | RuntimeError
    | AssertionError
    | KeyError
    | StopIteration
    | NotImplementedErrorKind
    | AlreadyChainedException
    | UndefinedBehaviorForCall
    | UnexpectedCallReceived
    | UnexpectedCallArguments
    | UndefinedAttribute
    | NonExistentAttribute
    | NonCallableValue
    | TypeCheckError
    | Skip
    | SkipTest
    | UserError(code: nat)

  /** An exception object: a plain one, or an aggregate of several. */
  datatype Exc =
    | Raised(kind: ExcKind)
    | Aggregated(items: seq<Exc>)

  /** The type objects that `isinstance` is asked about. */
  datatype PyType =
    | ObjectType
    | NoneType
    | BoolType
    | IntType
    | StrType
    | ListType
    | DictType
    | FunctionType
    | TypeType
    | ExceptionType(kind: ExcKind)
    | UserClass(cid: nat)

  type ObjId = nat

  datatype Value =
    | NoneV
    | BoolV(b: bool)
    | IntV(i: int)
    | StrV(s: string)
    | ListV(items: seq<Value>)
      /**
       * A dict: `keys` is the insertion order of the key objects, `entries`
       * the mapping, with each key filed under `KeyOf` (so `True` and `1`
       * are one key, as they are for a Python dict).
       */
    | DictV(keys: seq<Value>, entries: map<Value, Value>)
    | FuncV(fid: nat)
      /** A bound method: a function together with the object it is bound to. */
    | MethodV(func: nat, self: ObjId)
    | TypeV(t: PyType)
      /** An instance of user classes; `mro` lists the class ids of its type. */
    | InstanceV(oid: ObjId, mro: seq<nat>, hasCall: bool)
    | ExcV(kind: ExcKind)
      /** A `_CallableMock` object. */
    | MockV(mid: nat)
    | StaticMethodV(inner: Value)
    | ClassMethodV(inner: Value)
      /** A property whose getter returns `getter`. */
    | PropertyV(getter: Value)
      /** A per-instance descriptor proxy (see module ObjectModel). */
    | ProxyV(pid: nat)

  /** `bool(v)` for values without user-defined `__bool__`/`__len__`. */
  predicate Truthy(v: Value)
  {
    match v
    case NoneV => false
    case BoolV(b) => b
    case IntV(i) => i != 0
    case StrV(s) => |s| > 0
    case ListV(items) => |items| > 0
    case DictV(_, entries) => |entries| > 0
    case _ => true
  }

  /** `callable(v)` (staticmethod objects are callable since Python 3.10). */
  predicate Callable(v: Value)
  {
    match v
    case FuncV(_) => true
    case MethodV(_, _) => true
    case TypeV(_) => true
    case InstanceV(_, _, hasCall) => hasCall
    case MockV(_) => true
    case StaticMethodV(_) => true
    case _ => false
  }

  /** `inspect.isclass(v)`, equivalently `isinstance(v, type)`. */
  predicate IsClass(v: Value)
  {
    v.TypeV?
  }

  predicate IsNumeric(v: Value)
  {
    v.IntV? || v.BoolV?
  }

  /** The integer value of an `int` or `bool`. */
  function Num(v: Value): int
    requires IsNumeric(v)
  {
    if v.IntV? then v.i else if v.b then 1 else 0
  }

  /** `isinstance(v, t)`. */
  predicate InstanceOf(v: Value, t: PyType)
  {
    match t
    case ObjectType => true
    case NoneType => v.NoneV?
    case BoolType => v.BoolV?
    case IntType => IsNumeric(v)
    case StrType => v.StrV?
    case ListType => v.ListV?
    case DictType => v.DictV?
    case FunctionType => v.FuncV?
    case TypeType => v.TypeV?
    case ExceptionType(k) => v == ExcV(k)
    case UserClass(c) => v.InstanceV? && c in v.mro
  }

  /** Whether `hash(v)` succeeds. */
  predicate Hashable(v: Value)
  {
    !(v.ListV? || v.DictV?)
  }

  /**
   * The slot a hashable key occupies in a dict.  A dict finds a key by hash
   * and then `==`; among hashable values only `bool` and `int` are `==`
   * without being identical, and `hash(True) == hash(1)`, so a `bool` key is
   * filed as its `int`.
   */
  function KeyOf(k: Value): Value
  {
    if k.BoolV? then IntV(Num(k)) else k
  }

  /**
   * `a == b` between plain values: numbers compare by value (so `True == 1`),
   * lists elementwise, dicts by their key sets and values, everything else
   * by identity, which is structural equality here.  An `ExcV` names only
   * the exception's kind, not the object, so two exceptions of one kind are
   * taken as one value, where Python tells two exception objects apart.
   */
  predicate PyEq(a: Value, b: Value)
  {
    if IsNumeric(a) && IsNumeric(b) then Num(a) == Num(b)
    else if a.ListV? && b.ListV? then
      |a.items| == |b.items| && forall i :: 0 <= i < |a.items| ==> PyEq(a.items[i], b.items[i])
    else if a.DictV? && b.DictV? then
      a.entries.Keys == b.entries.Keys &&
      forall k :: k in a.entries ==> k in b.entries && PyEq(a.entries[k], b.entries[k])
    else a == b
  }

  /** Two hashable keys share a dict slot exactly when they are `==`. */
  lemma KeyOfIsEquality(a: Value, b: Value)
    requires Hashable(a) && Hashable(b)
    ensures KeyOf(a) == KeyOf(b) <==> PyEq(a, b)
  {
  }

  /** `x in items` for a list, which compares with `==`. */
  predicate ListHas(items: seq<Value>, x: Value)
  {
    exists i :: 0 <= i < |items| && PyEq(items[i], x)
  }

  predicate IsPrefix(p: string, s: string)
  {
    |p| <= |s| && s[..|p|] == p
  }

  predicate IsSuffix(p: string, s: string)
  {
    |p| <= |s| && s[|s| - |p|..] == p
  }

  /** `p in s` for strings. */
  predicate IsSubstring(p: string, s: string)
  {
    exists i :: 0 <= i <= |s| && IsPrefix(p, s[i..])
  }

  /** Keyword arguments in call order, each name given once. */
  predicate DistinctNames<T>(kw: seq<(Name, T)>)
  {
    forall i, j :: 0 <= i < j < |kw| ==> kw[i].0 != kw[j].0
  }

  /** The names of a keyword-argument list, in order. */
  function Names<T>(kw: seq<(Name, T)>): (r: seq<Name>)
    ensures |r| == |kw| && forall i :: 0 <= i < |kw| ==> r[i] == kw[i].0
  {
    if kw == [] then [] else [kw[0].0] + Names(kw[1..])
  }

  /** The value of keyword `n`, if given. */
  function KwLookup<T>(kw: seq<(Name, T)>, n: Name): (r: Option<T>)
    ensures r.Some? <==> exists i :: 0 <= i < |kw| && kw[i].0 == n
    ensures r.Some? ==> exists i :: 0 <= i < |kw| && kw[i] == (n, r.value)
  {
    if kw == [] then None
    else if kw[0].0 == n then Some(kw[0].1)
    else
      var r := KwLookup(kw[1..], n);
      assert forall i :: 0 < i < |kw| ==> kw[i] == kw[1..][i - 1];
      r
  }

  /** A concrete call: positional arguments and keyword arguments. */
  datatype Call = Call(args: seq<Value>, kwargs: seq<(Name, Value)>)

  /** `list(reversed(s))`. */
  function Reverse<T>(s: seq<T>): (r: seq<T>)
    ensures |r| == |s|
    ensures forall k :: 0 <= k < |s| ==> r[k] == s[|s| - 1 - k]
  {
    if s == [] then [] else Reverse(s[1..]) + [s[0]]
  }
}
