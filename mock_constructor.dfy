/**
 * The registry side of `mock_constructor` (testslide/mock_constructor.py):
 * the first mock of `(id(target), class_name)` swaps the class for a fresh
 * subclass whose `__new__` is a `_CallableMock` and records the pair; a
 * later mock of the same key reuses that subclass; teardown puts the
 * original classes back.
 *
 * A class value is `TypeV(UserClass(c))` for the class object `c` of the
 * heap.  The object the new subclass gets is a parameter (allocation), as
 * is the number of its `_CallableMock`.
 */
module MockConstructor {
  import opened Values
  import opened ObjectModel

  type Key = (ObjId, Name)

  /** The closure `mock_constructor` appends to `_unpatchers` for a key. */
  datatype ClassRestore = ClassRestore(target: ObjId, className: Name, original: Value)

  /** `_mocked_classes`: the original class and the mocked class per key; and the `_unpatchers` list. */
  datatype State = State(heap: Heap, mocked: map<Key, (Value, Value)>, unpatchers: seq<ClassRestore>)

  /** What the final `_MockCallableDSL(...)` call is handed: the mock of `__new__`, the mocked class, the original class. */
  datatype Handoff = Handoff(callableMock: Value, mockedClass: Value, originalClass: Value)

  /** `_is_string(obj)`: an instance of `str` (or a subclass). */
  predicate IsString(v: Value)
  {
    v.StrV?
  }

  /**
   * Whether `type(name, (c,), {...})` can derive from the class `c`: every
   * class of the model can be subclassed except `bool`, `NoneType` and the
   * function type, for which `type()` raises TypeError.
   */
  predicate Subclassable(c: Value)
  {
    c.TypeV? && !(c.t.BoolType? || c.t.NoneType? || c.t.FunctionType?)
  }

  /** The class object a subclass of `original` gets: itself first, then the original's MRO. */
  function SubclassMro(h: Heap, newClass: ObjId, original: Value): seq<ObjId>
  {
    [newClass] + (if original.TypeV? && original.t.UserClass? then Mro(h, original.t.cid) else [])
  }

  /**
   * `mock_constructor(target, class_name)` up to the `_MockCallableDSL` call:
   * the new state and the hand-off, or the exception raised.
   */
  function MockConstructorSpec(s: State, target: ObjId, className: Value, newClass: ObjId, mid: nat): (State, Result<Handoff, ExcKind>)
  {
    if !IsString(className) then (s, Err(ValueError))
    else
      var name := className.s;
      var key := (target, name);
      if key in s.mocked then
        var (original, mockedClass) := s.mocked[key];
        match GetAttr(s.heap, target, name)
        case Err(e) => (s, Err(e))
        case Ok(current) =>
          if current != mockedClass then (s, Err(AssertionError))
          else if !(mockedClass.TypeV? && mockedClass.t.UserClass?) then (s, Err(AttributeError))
          else match GetAttr(s.heap, mockedClass.t.cid, "__new__")
            case Err(e) => (s, Err(e))
            case Ok(cm) => (s, Ok(Handoff(cm, mockedClass, original)))
      else
        match GetAttr(s.heap, target, name)
        case Err(e) => (s, Err(e))
        case Ok(original) =>
          if !IsClass(original) then (s, Err(ValueError))
          else
            var us := s.unpatchers + [ClassRestore(target, name, original)];
            if !Subclassable(original) then (State(s.heap, s.mocked, us), Err(TypeError))
            else
            var mockedClass := TypeV(UserClass(newClass));
            var h1 := s.heap.(kinds := s.heap.kinds[newClass := Class(SubclassMro(s.heap, newClass, original))],
                              dicts := s.heap.dicts[newClass := map["__new__" := MockV(mid)]]);
            match SetAttr(h1, target, name, mockedClass)
            case Err(e) => (State(h1, s.mocked, us), Err(e))
            case Ok(h2) =>
              (State(h2, s.mocked[key := (original, mockedClass)], us), Ok(Handoff(MockV(mid), mockedClass, original)))
  }

  /** One unpatcher: `setattr(target, class_name, original_class)`, then `del _mocked_classes[key]`. */
  function RestoreClass(h: Heap, mocked: map<Key, (Value, Value)>, u: ClassRestore): (Heap, map<Key, (Value, Value)>, Option<ExcKind>)
  {
    match SetAttr(h, u.target, u.className, u.original)
    case Err(e) => (h, mocked, Some(e))
    case Ok(h') =>
      var key := (u.target, u.className);
      if key in mocked then (h', mocked - {key}, None) else (h', mocked, Some(KeyError))
  }

  /**
   * `unpatch_all_constructor_mocks()`: the unpatchers in registration
   * order until one raises; the list is emptied in any case.
   */
  function UnpatchAllSpec(h: Heap, mocked: map<Key, (Value, Value)>, us: seq<ClassRestore>): (State, Option<ExcKind>)
    decreases |us|
  {
    if us == [] then (State(h, mocked, []), None)
    else
      var (h', m', e) := RestoreClass(h, mocked, us[0]);
      if e.Some? then (State(h', m', []), e) else UnpatchAllSpec(h', m', us[1..])
  }

  /** The generated `original_callable(_, *args, **kwargs)`: the original class called without the first argument. */
  function OriginalCallable(originalClass: Value, call: Call): (r: Result<(Value, Call), ExcKind>)
    ensures |call.args| == 0 <==> r == Err(TypeError)
    ensures r.Ok? ==> r.value.0 == originalClass && [call.args[0]] + r.value.1.args == call.args && r.value.1.kwargs == call.kwargs
  {
    if |call.args| == 0 then Err(TypeError) else Ok((originalClass, Call(call.args[1..], call.kwargs)))
  }

  /** The module-level `_mocked_classes` and `_unpatchers`. */
  class ConstructorMocks {
    var mocked: map<Key, (Value, Value)>
    var unpatchers: seq<ClassRestore>

    constructor ()
      ensures mocked == map[] && unpatchers == []
    {
      mocked := map[];
      unpatchers := [];
    }

    method MockConstructor(space: ObjectSpace, target: ObjId, className: Value, newClass: ObjId, mid: nat)
      returns (r: Result<Handoff, ExcKind>)
      modifies this, space
      ensures var t := MockConstructorSpec(State(old(space.heap), old(mocked), old(unpatchers)), target, className, newClass, mid);
        State(space.heap, mocked, unpatchers) == t.0 && r == t.1
    {
      if !IsString(className) {
        return Err(ValueError);
      }
      var name := className.s;
      var key := (target, name);
      if key in mocked {
        var (original, mockedClass) := mocked[key];
        var current := GetAttr(space.heap, target, name);
        if current.Err? {
          return Err(current.error);
        }
        if current.value != mockedClass {
          return Err(AssertionError);
        }
        if !(mockedClass.TypeV? && mockedClass.t.UserClass?) {
          return Err(AttributeError);
        }
        var callableMock := GetAttr(space.heap, mockedClass.t.cid, "__new__");
        if callableMock.Err? {
          return Err(callableMock.error);
        }
        return Ok(Handoff(callableMock.value, mockedClass, original));
      }
      var original := GetAttr(space.heap, target, name);
      if original.Err? {
        return Err(original.error);
      }
      if !IsClass(original.value) {
        return Err(ValueError);
      }
      unpatchers := unpatchers + [ClassRestore(target, name, original.value)];
      if !Subclassable(original.value) {
        return Err(TypeError);
      }
      var mockedClass := TypeV(UserClass(newClass));
      space.heap := space.heap.(kinds := space.heap.kinds[newClass := Class(SubclassMro(space.heap, newClass, original.value))],
                                dicts := space.heap.dicts[newClass := map["__new__" := MockV(mid)]]);
      var err := space.SetAttribute(target, name, mockedClass);
      if err.Some? {
        return Err(err.value);
      }
      mocked := mocked[key := (original.value, mockedClass)];
      r := Ok(Handoff(MockV(mid), mockedClass, original.value));
    }

    /** `unpatch_all_constructor_mocks()`. */
    method UnpatchAll(space: ObjectSpace) returns (err: Option<ExcKind>)
      modifies this, space
      ensures unpatchers == []
      ensures (State(space.heap, mocked, unpatchers), err) == UnpatchAllSpec(old(space.heap), old(mocked), old(unpatchers))
    {
      var i := 0;
      err := None;
      while i < |unpatchers|
        invariant 0 <= i <= |unpatchers| && unpatchers == old(unpatchers)
        invariant UnpatchAllSpec(space.heap, mocked, unpatchers[i..]) == UnpatchAllSpec(old(space.heap), old(mocked), old(unpatchers))
        decreases |unpatchers| - i
      {
        assert unpatchers[i..][0] == unpatchers[i] && unpatchers[i..][1..] == unpatchers[i + 1..];
        var u := unpatchers[i];
        var e := space.SetAttribute(u.target, u.className, u.original);
        if e.Some? {
          err := e;
          break;
        }
        var key := (u.target, u.className);
        if key !in mocked {
          err := Some(KeyError);
          break;
        }
        mocked := mocked - {key};
        i := i + 1;
      }
      unpatchers := [];
    }
  }

  // -----------------------------------------------------------------------
  // Properties

  /** A class name that is not a string is refused before anything else. */
  lemma NonStringNameRefused(s: State, target: ObjId, className: Value, newClass: ObjId, mid: nat)
    requires !className.StrV?
    ensures MockConstructorSpec(s, target, className, newClass, mid) == (s, Err(ValueError))
  {
  }

  /** Something that is not a class is refused, and nothing changes. */
  lemma NotAClassRefused(s: State, target: ObjId, name: string, newClass: ObjId, mid: nat)
    requires (target, name) !in s.mocked && GetAttr(s.heap, target, name).Ok? && !IsClass(GetAttr(s.heap, target, name).value)
    ensures MockConstructorSpec(s, target, StrV(name), newClass, mid) == (s, Err(ValueError))
  {
  }

  /**
   * A module attribute holding a class that cannot be subclassed: `type()`
   * raises TypeError after the unpatcher was appended but before the key
   * was recorded, so the module is unchanged and the stray unpatcher makes
   * the next teardown raise KeyError on its `del`, after putting the class
   * back.
   */
  lemma UnsubclassableStraysUnpatcher(s: State, m: ObjId, name: string, c: PyType, newClass: ObjId, mid: nat)
    requires m in s.heap.kinds && s.heap.kinds[m].Module? && HasOwn(s.heap, m, name)
    requires s.heap.dicts[m][name] == TypeV(c) && (c.BoolType? || c.NoneType? || c.FunctionType?)
    requires (m, name) !in s.mocked && s.unpatchers == []
    ensures var t := MockConstructorSpec(s, m, StrV(name), newClass, mid);
      t.1 == Err(TypeError) && t.0.heap == s.heap && t.0.mocked == s.mocked &&
      t.0.unpatchers == [ClassRestore(m, name, TypeV(c))] &&
      UnpatchAllSpec(t.0.heap, t.0.mocked, t.0.unpatchers) == (State(s.heap, s.mocked, []), Some(KeyError))
  {
    var h := PutOwn(s.heap, m, name, TypeV(c));
    assert s.heap.dicts[m][name := TypeV(c)] == s.heap.dicts[m];
    assert s.heap.dicts[m := s.heap.dicts[m]] == s.heap.dicts;
    assert h == s.heap;
    assert SetAttr(s.heap, m, name, TypeV(c)) == Ok(h);
  }

  /**
   * The first mock of a module's class: the module now holds a subclass
   * whose `__new__` is the new mock and whose MRO continues with the
   * original's; the pair is recorded and one unpatcher is added.
   */
  lemma FirstMockInstallsSubclass(s: State, m: ObjId, name: string, c: ObjId, newClass: ObjId, mid: nat)
    requires m in s.heap.kinds && s.heap.kinds[m].Module? && HasOwn(s.heap, m, name)
    requires s.heap.dicts[m][name] == TypeV(UserClass(c)) && (m, name) !in s.mocked
    requires newClass !in s.heap.kinds && newClass != m
    ensures var t := MockConstructorSpec(s, m, StrV(name), newClass, mid);
      t.1 == Ok(Handoff(MockV(mid), TypeV(UserClass(newClass)), TypeV(UserClass(c)))) &&
      GetAttr(t.0.heap, m, name) == Ok(TypeV(UserClass(newClass))) &&
      GetAttr(t.0.heap, newClass, "__new__") == Ok(MockV(mid)) &&
      Mro(t.0.heap, newClass) == [newClass] + Mro(s.heap, c) &&
      t.0.mocked == s.mocked[(m, name) := (TypeV(UserClass(c)), TypeV(UserClass(newClass)))] &&
      t.0.unpatchers == s.unpatchers + [ClassRestore(m, name, TypeV(UserClass(c)))]
  {
    var h1 := s.heap.(kinds := s.heap.kinds[newClass := Class([newClass] + Mro(s.heap, c))],
                      dicts := s.heap.dicts[newClass := map["__new__" := MockV(mid)]]);
    assert Mro(s.heap, c) == (if IsClassObj(s.heap, c) then s.heap.kinds[c].mro else []);
    var h2 := PutOwn(h1, m, name, TypeV(UserClass(newClass)));
    assert SetAttr(h1, m, name, TypeV(UserClass(newClass))) == Ok(h2);
    assert h2.kinds[newClass] == Class([newClass] + Mro(s.heap, c));
    assert h2.dicts[newClass] == map["__new__" := MockV(mid)];
    assert ClassLookup(h2, [newClass] + Mro(s.heap, c), "__new__") == Some(MockV(mid));
  }

  /**
   * Mocking the same key again, while the target still holds the mocked
   * class, hands back the same `__new__` mock and changes nothing.
   */
  lemma RemockReuses(s: State, target: ObjId, name: string, newClass: ObjId, mid: nat)
    requires (target, name) in s.mocked
    requires GetAttr(s.heap, target, name) == Ok(s.mocked[(target, name)].1)
    requires s.mocked[(target, name)].1.TypeV? && s.mocked[(target, name)].1.t.UserClass?
    requires GetAttr(s.heap, s.mocked[(target, name)].1.t.cid, "__new__").Ok?
    ensures var t := MockConstructorSpec(s, target, StrV(name), newClass, mid);
      t.0 == s && t.1.Ok? && t.1.value.mockedClass == s.mocked[(target, name)].1 &&
      t.1.value.originalClass == s.mocked[(target, name)].0 &&
      t.1.value.callableMock == GetAttr(s.heap, s.mocked[(target, name)].1.t.cid, "__new__").value
  {
  }

  /** If the target's attribute was changed after mocking, a re-mock raises AssertionError. */
  lemma ChangedAfterMockAsserts(s: State, target: ObjId, name: string, newClass: ObjId, mid: nat)
    requires (target, name) in s.mocked
    requires GetAttr(s.heap, target, name).Ok? && GetAttr(s.heap, target, name).value != s.mocked[(target, name)].1
    ensures MockConstructorSpec(s, target, StrV(name), newClass, mid) == (s, Err(AssertionError))
  {
  }

  /** Teardown always empties `_unpatchers`; when nothing raises, every recorded key is gone. */
  lemma {:induction false} UnpatchAllForgets(h: Heap, mocked: map<Key, (Value, Value)>, us: seq<ClassRestore>)
    ensures UnpatchAllSpec(h, mocked, us).0.unpatchers == []
    ensures UnpatchAllSpec(h, mocked, us).1.None? ==>
      UnpatchAllSpec(h, mocked, us).0.mocked.Keys == mocked.Keys - set i | 0 <= i < |us| :: (us[i].target, us[i].className)
    decreases |us|
  {
    if us != [] {
      var keys := set i | 0 <= i < |us| :: (us[i].target, us[i].className);
      var rest := set i | 0 <= i < |us[1..]| :: (us[1..][i].target, us[1..][i].className);
      assert keys == {(us[0].target, us[0].className)} + rest by {
        forall k | k in keys ensures k in {(us[0].target, us[0].className)} + rest {
          var i :| 0 <= i < |us| && k == (us[i].target, us[i].className);
          if i > 0 {
            assert us[1..][i - 1] == us[i];
          }
        }
        forall k | k in rest ensures k in keys {
          var i :| 0 <= i < |us[1..]| && k == (us[1..][i].target, us[1..][i].className);
          assert us[i + 1] == us[1..][i];
        }
      }
      var (h', m', e) := RestoreClass(h, mocked, us[0]);
      if e.None? {
        UnpatchAllForgets(h', m', us[1..]);
      }
    }
  }

  /**
   * Round trip on a module's class: mock it, then tear down; the module
   * holds the original class again and the registry is empty.
   */
  lemma ModuleClassRoundTrip(h: Heap, m: ObjId, name: string, c: ObjId, newClass: ObjId, mid: nat)
    requires m in h.kinds && h.kinds[m].Module? && HasOwn(h, m, name) && h.dicts[m][name] == TypeV(UserClass(c))
    requires newClass !in h.kinds && newClass != m
    ensures var t := MockConstructorSpec(State(h, map[], []), m, StrV(name), newClass, mid);
      var u := UnpatchAllSpec(t.0.heap, t.0.mocked, t.0.unpatchers);
      t.1.Ok? && u.1.None? && u.0.mocked == map[] && u.0.unpatchers == [] &&
      GetAttr(u.0.heap, m, name) == Ok(TypeV(UserClass(c)))
  {
    var s := State(h, map[], []);
    FirstMockInstallsSubclass(s, m, name, c, newClass, mid);
    var t := MockConstructorSpec(s, m, StrV(name), newClass, mid);
    var u0 := ClassRestore(m, name, TypeV(UserClass(c)));
    assert t.0.unpatchers == [u0];
    var h3 := PutOwn(t.0.heap, m, name, TypeV(UserClass(c)));
    assert t.0.heap.kinds[m] == Module;
    assert SetAttr(t.0.heap, m, name, TypeV(UserClass(c))) == Ok(h3);
    assert t.0.mocked - {(m, name)} == map[];
    assert RestoreClass(t.0.heap, t.0.mocked, u0) == (h3, map[], None);
    assert [u0][1..] == [];
  }
}
