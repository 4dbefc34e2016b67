/**
 * Installing a value on an attribute of a module, class or instance and
 * building the closure that undoes it (testslide/patch.py).
 *
 * There are three branches.  Instance methods get a per-instance
 * `_DescriptorProxy` on the class.  Properties of the instance's class are
 * replaced by a property returning the new value.  Everything else is a
 * plain `setattr`.  Each branch returns an unpatcher, modelled as data
 * (`Unpatcher`) that `Undo` runs.
 */
module Patch {
  import opened Values
  import opened ObjectModel

  /** `_is_instance_method` looks through a proxy to the attribute it replaced, one level deep. */
  function Unwrap(h: Heap, v: Value): Value
  {
    if v.ProxyV? && v.pid < |h.proxies| then h.proxies[v.pid].original else v
  }

  /** The MRO `_is_instance_method` walks: the class itself, or the class of an instance. */
  function TargetMro(h: Heap, target: ObjId): seq<ObjId>
  {
    if target !in h.kinds then []
    else match h.kinds[target]
      case Class(mro) => mro
      case Instance(cls) => Mro(h, cls)
      case _ => []
  }

  /** Some class of `mro` stores a plain function under `name`, after unwrapping a proxy. */
  function StoresFunction(h: Heap, mro: seq<ObjId>, name: Name): (r: bool)
    ensures r <==> exists i :: 0 <= i < |mro| && HasOwn(h, mro[i], name) && Unwrap(h, OwnGet(h, mro[i], name)).FuncV?
  {
    if mro == [] then false
    else if HasOwn(h, mro[0], name) && Unwrap(h, OwnGet(h, mro[0], name)).FuncV? then true
    else
      var r := StoresFunction(h, mro[1..], name);
      assert forall i :: 0 < i < |mro| ==> mro[i] == mro[1..][i - 1];
      r
  }

  /**
   * `_is_instance_method(target, name)`: never for a module (nor, here, for
   * a StrictMock, whose per-instance class is not part of this heap).
   */
  function IsInstanceMethod(h: Heap, target: ObjId, name: Name): (r: bool)
    ensures target in h.kinds && h.kinds[target].Module? ==> !r
    ensures IsInstanceObj(h, target) ==>
      (r <==> exists i :: (0 <= i < |Mro(h, h.kinds[target].cls)| && HasOwn(h, Mro(h, h.kinds[target].cls)[i], name) &&
                           Unwrap(h, OwnGet(h, Mro(h, h.kinds[target].cls)[i], name)).FuncV?))
  {
    StoresFunction(h, TargetMro(h, target), name)
  }

  /** The getter result of the property `type(target)` exposes under `name`, if it is one. */
  function ClassProperty(h: Heap, target: ObjId, name: Name): Option<Value>
  {
    if IsInstanceObj(h, target) then
      var g := GetAttr(h, h.kinds[target].cls, name);
      if g.Ok? && g.value.PropertyV? then Some(g.value) else None
    else None
  }

  /**
   * An unpatch closure.  `hadEntry` and `restore` record whether there is
   * something to put back; the closures as written test the truthiness of
   * the saved value instead.
   */
  datatype Unpatcher =
    | RestoreClassEntry(klass: ObjId, attr: Name, prior: Value, hadEntry: bool)
    | RestoreProperty(target: ObjId, klass: ObjId, attr: Name, original: Value, restore: bool, restoreValue: Value)
    | RestoreAttribute(target: ObjId, attr: Name, restore: bool, restoreValue: Value)

  /** The heap after an operation, and what it returned or raised. */
  datatype Outcome<T> = Outcome(heap: Heap, result: Result<T, ExcKind>)

  /** `_mock_instance_attribute(instance, attr, value)` (testslide/patch.py:66-87). */
  function MockInstanceAttributeSpec(h: Heap, inst: ObjId, attr: Name, value: Value): Outcome<Unpatcher>
  {
    if !IsInstanceObj(h, inst) then Outcome(h, Err(TypeError))
    else
      var klass := h.kinds[inst].cls;
      var prior := OwnGet(h, klass, attr);
      var pid := |h.proxies|;
      var h1 := h.(proxies := h.proxies + [Proxy(prior, attr, map[])]);
      match SetAttr(h1, klass, attr, ProxyV(pid))
      case Err(e) => Outcome(h1, Err(e))
      case Ok(h2) =>
        match SetAttr(h2, inst, attr, value)
        case Err(e) => Outcome(h2, Err(e))
        case Ok(h3) => Outcome(h3, Ok(RestoreClassEntry(klass, attr, prior, HasOwn(h, klass, attr))))
  }

  /** `_patch(target, attribute, new_value, restore, restore_value)` (testslide/patch.py:90-117). */
  function PatchSpec(h: Heap, target: ObjId, attr: Name, newValue: Value, restore: bool, restoreValue: Value): Outcome<Unpatcher>
  {
    if IsInstanceMethod(h, target, attr) then MockInstanceAttributeSpec(h, target, attr, newValue)
    else if ClassProperty(h, target, attr).Some? then
      var klass := h.kinds[target].cls;
      var original := ClassProperty(h, target, attr).value;
      match SetAttr(h, klass, attr, PropertyV(newValue))
      case Err(e) => Outcome(h, Err(e))
      case Ok(h') => Outcome(h', Ok(RestoreProperty(target, klass, attr, original, restore, restoreValue)))
    else
      match SetAttr(h, target, attr, newValue)
      case Err(e) => Outcome(h, Err(e))
      case Ok(h') => Outcome(h', Ok(RestoreAttribute(target, attr, restore, restoreValue)))
  }

  /** `u` with its flag replaced by the truthiness of the value it saved. */
  function FlagFromSavedValue(u: Unpatcher): Unpatcher
  {
    match u
    case RestoreClassEntry(klass, attr, prior, _) => RestoreClassEntry(klass, attr, prior, Truthy(prior))
    case RestoreProperty(target, klass, attr, original, _, restoreValue) =>
      RestoreProperty(target, klass, attr, original, Truthy(restoreValue), restoreValue)
    case RestoreAttribute(target, attr, _, restoreValue) => RestoreAttribute(target, attr, Truthy(restoreValue), restoreValue)
  }

  /**
   * The unpatch closures as written: a falsy saved value means "delete".
   * They undo as intended exactly when the flag agrees with the saved
   * value's truthiness; otherwise they take the other branch.
   */
  function UndoAsWritten(h: Heap, u: Unpatcher): (r: Result<Heap, ExcKind>)
    ensures r == Undo(h, FlagFromSavedValue(u))
    ensures FlagFromSavedValue(u) == u ==> r == Undo(h, u)
    ensures u.RestoreAttribute? && u.restore && !Truthy(u.restoreValue) ==> r == DelAttr(h, u.target, u.attr)
    ensures u.RestoreClassEntry? && u.hadEntry && !Truthy(u.prior) ==> r == DelAttr(h, u.klass, u.attr)
    ensures u.RestoreProperty? && u.restore && !Truthy(u.restoreValue) ==> r == DelAttr(h, u.target, u.attr)
  {
    match u
    case RestoreClassEntry(klass, attr, prior, _) =>
      if Truthy(prior) then SetAttr(h, klass, attr, prior) else DelAttr(h, klass, attr)
    case RestoreProperty(target, klass, attr, original, _, restoreValue) =>
      if Truthy(restoreValue) then SetAttr(h, klass, attr, original) else DelAttr(h, target, attr)
    case RestoreAttribute(target, attr, _, restoreValue) =>
      if Truthy(restoreValue) then SetAttr(h, target, attr, restoreValue) else DelAttr(h, target, attr)
  }

  /** The unpatch closures as intended: put back whatever was there, delete only what was not. */
  function Undo(h: Heap, u: Unpatcher): Result<Heap, ExcKind>
  {
    match u
    case RestoreClassEntry(klass, attr, prior, hadEntry) =>
      if hadEntry then SetAttr(h, klass, attr, prior) else DelAttr(h, klass, attr)
    case RestoreProperty(target, klass, attr, original, restore, _) =>
      if restore then SetAttr(h, klass, attr, original) else DelAttr(h, target, attr)
    case RestoreAttribute(target, attr, restore, restoreValue) =>
      if restore then SetAttr(h, target, attr, restoreValue) else DelAttr(h, target, attr)
  }

  method MockInstanceAttribute(space: ObjectSpace, inst: ObjId, attr: Name, value: Value) returns (r: Result<Unpatcher, ExcKind>)
    modifies space
    ensures space.heap == MockInstanceAttributeSpec(old(space.heap), inst, attr, value).heap
    ensures r == MockInstanceAttributeSpec(old(space.heap), inst, attr, value).result
  {
    var h := space.heap;
    if !IsInstanceObj(h, inst) {
      return Err(TypeError);
    }
    var klass := h.kinds[inst].cls;
    var prior := OwnGet(h, klass, attr);
    var pid := space.NewProxy(prior, attr);
    var e1 := space.SetAttribute(klass, attr, ProxyV(pid));
    if e1.Some? {
      return Err(e1.value);
    }
    var e2 := space.SetAttribute(inst, attr, value);
    if e2.Some? {
      return Err(e2.value);
    }
    r := Ok(RestoreClassEntry(klass, attr, prior, HasOwn(h, klass, attr)));
  }

  method Patch(space: ObjectSpace, target: ObjId, attr: Name, newValue: Value, restore: bool, restoreValue: Value)
    returns (r: Result<Unpatcher, ExcKind>)
    modifies space
    ensures space.heap == PatchSpec(old(space.heap), target, attr, newValue, restore, restoreValue).heap
    ensures r == PatchSpec(old(space.heap), target, attr, newValue, restore, restoreValue).result
  {
    var h := space.heap;
    if IsInstanceMethod(h, target, attr) {
      r := MockInstanceAttribute(space, target, attr, newValue);
    } else if ClassProperty(h, target, attr).Some? {
      var klass := h.kinds[target].cls;
      var original := ClassProperty(h, target, attr).value;
      var e := space.SetAttribute(klass, attr, PropertyV(newValue));
      if e.Some? {
        return Err(e.value);
      }
      r := Ok(RestoreProperty(target, klass, attr, original, restore, restoreValue));
    } else {
      var e := space.SetAttribute(target, attr, newValue);
      if e.Some? {
        return Err(e.value);
      }
      r := Ok(RestoreAttribute(target, attr, restore, restoreValue));
    }
  }

  /** Calls an unpatch closure. */
  method Unpatch(space: ObjectSpace, u: Unpatcher) returns (err: Option<ExcKind>)
    modifies space
    ensures Undo(old(space.heap), u).Ok? ==> err.None? && space.heap == Undo(old(space.heap), u).value
    ensures Undo(old(space.heap), u).Err? ==> err == Some(Undo(old(space.heap), u).error) && space.heap == old(space.heap)
  {
    match u
    case RestoreClassEntry(klass, attr, prior, hadEntry) =>
      if hadEntry { err := space.SetAttribute(klass, attr, prior); } else { err := space.DeleteAttribute(klass, attr); }
    case RestoreProperty(target, klass, attr, original, restore, _) =>
      if restore { err := space.SetAttribute(klass, attr, original); } else { err := space.DeleteAttribute(target, attr); }
    case RestoreAttribute(target, attr, restore, restoreValue) =>
      if restore { err := space.SetAttribute(target, attr, restoreValue); } else { err := space.DeleteAttribute(target, attr); }
  }

  // -----------------------------------------------------------------------
  // Per-instance patching

  /** The heap `_mock_instance_attribute` leaves: a new proxy on the class, holding the override for `inst`. */
  lemma MockInstanceAttributeHeap(h: Heap, inst: ObjId, attr: Name, value: Value)
    requires WellFormed(h) && IsInstanceObj(h, inst)
    ensures var klass := h.kinds[inst].cls;
      var o := MockInstanceAttributeSpec(h, inst, attr, value);
      o.result == Ok(RestoreClassEntry(klass, attr, OwnGet(h, klass, attr), HasOwn(h, klass, attr))) &&
      o.heap.kinds == h.kinds &&
      o.heap.dicts == h.dicts[klass := h.dicts[klass][attr := ProxyV(|h.proxies|)]] &&
      o.heap.proxies == h.proxies + [Proxy(OwnGet(h, klass, attr), attr, map[inst := value])]
  {
    var klass := h.kinds[inst].cls;
    var prior := OwnGet(h, klass, attr);
    var pid := |h.proxies|;
    var h1 := h.(proxies := h.proxies + [Proxy(prior, attr, map[])]);
    var h2 := PutOwn(h1, klass, attr, ProxyV(pid));
    assert SetAttr(h1, klass, attr, ProxyV(pid)) == Ok(h2);
    var mro := Mro(h2, klass);
    assert mro[0] == klass;
    assert ClassLookup(h2, mro, attr) == Some(ProxyV(pid));
  }

  /**
   * `_mock_instance_attribute` on an instance succeeds, and its unpatcher
   * (as intended) gives back exactly the dictionaries and kinds it started from.
   */
  lemma MockInstanceAttributeRoundTrip(h: Heap, inst: ObjId, attr: Name, value: Value)
    requires WellFormed(h) && IsInstanceObj(h, inst)
    ensures var o := MockInstanceAttributeSpec(h, inst, attr, value);
      o.result.Ok? && Undo(o.heap, o.result.value).Ok? &&
      Undo(o.heap, o.result.value).value.dicts == h.dicts &&
      Undo(o.heap, o.result.value).value.kinds == h.kinds
  {
    MockInstanceAttributeHeap(h, inst, attr, value);
    var klass := h.kinds[inst].cls;
    var d := h.dicts[klass];
    var pid := |h.proxies|;
    if HasOwn(h, klass, attr) {
      assert d[attr := ProxyV(pid)][attr := d[attr]] == d;
    } else {
      assert d[attr := ProxyV(pid)] - {attr} == d;
    }
  }

  /**
   * After `_mock_instance_attribute`, the patched instance reads the new
   * value while another instance of the same class still gets the method
   * it got before.
   */
  lemma MockInstanceAttributeIsolation(h: Heap, inst: ObjId, other: ObjId, attr: Name, value: Value, f: nat)
    requires WellFormed(h) && IsInstanceObj(h, inst) && IsInstanceObj(h, other) && other != inst
    requires h.kinds[other].cls == h.kinds[inst].cls && !HasOwn(h, other, attr)
    requires ClassLookup(h, Mro(h, h.kinds[inst].cls), attr) == Some(FuncV(f))
    ensures var o := MockInstanceAttributeSpec(h, inst, attr, value);
      o.result.Ok? &&
      GetAttr(o.heap, inst, attr) == Ok(value) &&
      GetAttr(o.heap, other, attr) == GetAttr(h, other, attr) == Ok(MethodV(f, other))
  {
    MockInstanceAttributeHeap(h, inst, attr, value);
    PatchedInstanceReadsOverride(h, inst, attr, value);
    OtherInstanceReadsMethod(h, inst, other, attr, value, f);
    assert GetAttr(h, other, attr) == BindToInstance(h, FuncV(f), other, h.kinds[inst].cls);
  }

  lemma PatchedInstanceReadsOverride(h: Heap, inst: ObjId, attr: Name, value: Value)
    requires WellFormed(h) && IsInstanceObj(h, inst)
    ensures GetAttr(MockInstanceAttributeSpec(h, inst, attr, value).heap, inst, attr) == Ok(value)
  {
    MockInstanceAttributeHeap(h, inst, attr, value);
    var klass := h.kinds[inst].cls;
    var pid := |h.proxies|;
    var h3 := MockInstanceAttributeSpec(h, inst, attr, value).heap;
    var mro := Mro(h, klass);
    assert Mro(h3, klass) == mro && mro[0] == klass;
    assert ClassLookup(h3, mro, attr) == Some(ProxyV(pid));
    ProxyOverrideWins(h3, inst, attr, pid);
  }

  lemma OtherInstanceReadsMethod(h: Heap, inst: ObjId, other: ObjId, attr: Name, value: Value, f: nat)
    requires WellFormed(h) && IsInstanceObj(h, inst) && IsInstanceObj(h, other) && other != inst
    requires h.kinds[other].cls == h.kinds[inst].cls
    requires ClassLookup(h, Mro(h, h.kinds[inst].cls), attr) == Some(FuncV(f))
    ensures GetAttr(MockInstanceAttributeSpec(h, inst, attr, value).heap, other, attr) == Ok(MethodV(f, other))
  {
    MockInstanceAttributeHeap(h, inst, attr, value);
    var h3 := MockInstanceAttributeSpec(h, inst, attr, value).heap;
    ReadThroughNewProxy(h, h3, inst, other, attr, value, f);
  }

  /** The same, on the heap `_mock_instance_attribute` leaves, spelled out. */
  lemma ReadThroughNewProxy(h: Heap, h3: Heap, inst: ObjId, other: ObjId, attr: Name, value: Value, f: nat)
    requires KindsOk(h.kinds) && IsInstanceObj(h, inst) && IsInstanceObj(h, other) && other != inst
    requires h.kinds[other].cls == h.kinds[inst].cls
    requires ClassLookup(h, Mro(h, h.kinds[inst].cls), attr) == Some(FuncV(f))
    requires var klass := h.kinds[inst].cls;
      h3.kinds == h.kinds && klass in h.dicts &&
      h3.dicts == h.dicts[klass := h.dicts[klass][attr := ProxyV(|h.proxies|)]] &&
      h3.proxies == h.proxies + [Proxy(OwnGet(h, klass, attr), attr, map[inst := value])]
    ensures GetAttr(h3, other, attr) == Ok(MethodV(f, other))
  {
    var klass := h.kinds[inst].cls;
    var pid := |h.proxies|;
    var mro := Mro(h, klass);
    assert Mro(h3, klass) == mro && mro[0] == klass;
    assert ClassLookup(h3, mro, attr) == Some(ProxyV(pid));
    if HasOwn(h, klass, attr) {
      assert OwnGet(h, klass, attr) == FuncV(f);
      ProxyReadsOriginal(h3, other, attr, pid, f);
    } else {
      var parents := mro[1..];
      assert ClassLookup(h, parents, attr) == Some(FuncV(f));
      FallbackFindsLookup(h, parents, attr);
      forall i | 0 <= i < |parents|
        ensures OwnGet(h, parents[i], attr) == OwnGet(h3, parents[i], attr)
      {
        assert parents[i] == mro[i + 1] != mro[0];
      }
      FallbackFrame(h, h3, parents, attr);
      ProxyReadsParent(h3, other, attr, pid, f);
    }
  }

  // -----------------------------------------------------------------------
  // `_patch` round trips (unpatching as intended)

  /**
   * The plain branch: after patching, the target reads the new value; after
   * unpatching with the value read beforehand, it reads that value again.
   */
  lemma PatchPlainRoundTrip(h: Heap, target: ObjId, attr: Name, newValue: Value, orig: Value)
    requires WellFormed(h) && target in h.kinds
    requires !IsInstanceMethod(h, target, attr) && ClassProperty(h, target, attr).None?
    requires GetAttr(h, target, attr) == Ok(orig)
    requires forall o, n :: o in h.dicts && n in h.dicts[o] && h.dicts[o][n].ProxyV? ==> h.dicts[o][n].pid < |h.proxies|
    requires h.kinds[target].Class? ==> !(orig.StaticMethodV? || orig.ClassMethodV? || newValue.StaticMethodV? || newValue.ClassMethodV?)
    requires h.kinds[target].Double? ==>
      DoubleReadsBack(h.kinds[target], attr, newValue) && DoubleReadsBack(h.kinds[target], attr, orig)
    ensures var o := PatchSpec(h, target, attr, newValue, true, orig);
      o.result.Ok? && GetAttr(o.heap, target, attr) == Ok(newValue) &&
      Undo(o.heap, o.result.value).Ok? && GetAttr(Undo(o.heap, o.result.value).value, target, attr) == Ok(orig)
  {
    PlainSetSucceeds(h, target, attr, newValue);
    var h' := SetAttr(h, target, attr, newValue).value;
    SetThenGetAny(h, target, attr, newValue);
    if IsInstanceObj(h, target) {
      var mro := Mro(h, h.kinds[target].cls);
      if ClassLookup(h, mro, attr).Some? && ClassLookup(h, mro, attr).value.ProxyV? {
        ClassLookupSameDicts(h, h', mro, attr);
      } else {
        ClassLookupOtherDict(h, target, attr, newValue, mro);
      }
    }
    SetThenGetAny(h', target, attr, orig);
  }

  /** In the plain branch `setattr` does not fail on a well-formed heap. */
  lemma PlainSetSucceeds(h: Heap, target: ObjId, attr: Name, v: Value)
    requires WellFormed(h) && target in h.kinds && ClassProperty(h, target, attr).None?
    requires forall o, n :: o in h.dicts && n in h.dicts[o] && h.dicts[o][n].ProxyV? ==> h.dicts[o][n].pid < |h.proxies|
    requires h.kinds[target].Double? ==> DoubleStore(h.kinds[target], attr, v).Ok?
    ensures SetAttr(h, target, attr, v).Ok?
  {
    if IsInstanceObj(h, target) {
      var cls := h.kinds[target].cls;
      var found := ClassLookup(h, Mro(h, cls), attr);
      if found.Some? && found.value.ProxyV? {
        ClassLookupFirst(h, Mro(h, cls), attr);
        var i :| 0 <= i < |Mro(h, cls)| && HasOwn(h, Mro(h, cls)[i], attr) && found.value == h.dicts[Mro(h, cls)[i]][attr];
      }
    }
  }

  /**
   * The property branch: the instance reads the new value through the
   * replacement property; unpatching puts the original property back.
   */
  lemma PatchPropertyRoundTrip(h: Heap, inst: ObjId, attr: Name, newValue: Value, g: Value)
    requires WellFormed(h) && IsInstanceObj(h, inst) && !IsInstanceMethod(h, inst, attr)
    requires ClassLookup(h, Mro(h, h.kinds[inst].cls), attr) == Some(PropertyV(g))
    ensures GetAttr(h, inst, attr) == Ok(g)
    ensures var o := PatchSpec(h, inst, attr, newValue, true, g);
      o.result.Ok? && GetAttr(o.heap, inst, attr) == Ok(newValue) &&
      Undo(o.heap, o.result.value).Ok? && GetAttr(Undo(o.heap, o.result.value).value, inst, attr) == Ok(g)
  {
    var klass := h.kinds[inst].cls;
    assert GetAttr(h, inst, attr) == BindToInstance(h, PropertyV(g), inst, klass);
    PropertyPatchedRead(h, inst, attr, newValue, g);
    PropertyUndoneRead(h, inst, attr, newValue, g);
  }

  lemma PropertyPatchedRead(h: Heap, inst: ObjId, attr: Name, newValue: Value, g: Value)
    requires WellFormed(h) && IsInstanceObj(h, inst) && !IsInstanceMethod(h, inst, attr)
    requires ClassLookup(h, Mro(h, h.kinds[inst].cls), attr) == Some(PropertyV(g))
    ensures var o := PatchSpec(h, inst, attr, newValue, true, g);
      o.result.Ok? && GetAttr(o.heap, inst, attr) == Ok(newValue)
  {
    PropertyBranchHeap(h, inst, attr, newValue, true, g);
    PropertyReadAfterPut(h, inst, attr, newValue);
  }

  lemma PropertyUndoneRead(h: Heap, inst: ObjId, attr: Name, newValue: Value, g: Value)
    requires WellFormed(h) && IsInstanceObj(h, inst) && !IsInstanceMethod(h, inst, attr)
    requires ClassLookup(h, Mro(h, h.kinds[inst].cls), attr) == Some(PropertyV(g))
    ensures var o := PatchSpec(h, inst, attr, newValue, true, g);
      o.result.Ok? && Undo(o.heap, o.result.value).Ok? && GetAttr(Undo(o.heap, o.result.value).value, inst, attr) == Ok(g)
  {
    PropertyBranchHeap(h, inst, attr, newValue, true, g);
    var klass := h.kinds[inst].cls;
    var h' := PutOwn(h, klass, attr, PropertyV(newValue));
    PropertyUndoHeap(h', inst, klass, attr, g);
    PropertyReadAfterPut(h', inst, attr, g);
  }

  lemma PropertyReadAfterPut(h: Heap, inst: ObjId, attr: Name, x: Value)
    requires KindsOk(h.kinds) && IsInstanceObj(h, inst)
    ensures GetAttr(PutOwn(h, h.kinds[inst].cls, attr, PropertyV(x)), inst, attr) == Ok(x)
  {
    var h' := PutOwn(h, h.kinds[inst].cls, attr, PropertyV(x));
    assert h'.kinds == h.kinds;
    ReadOwnClassProperty(h', inst, attr, x);
  }

  lemma PropertyUndoHeap(h: Heap, inst: ObjId, klass: ObjId, attr: Name, g: Value)
    requires IsClassObj(h, klass)
    ensures Undo(h, RestoreProperty(inst, klass, attr, PropertyV(g), true, g)) == Ok(PutOwn(h, klass, attr, PropertyV(g)))
  {
  }

  /** The property branch is taken, and replaces the class's entry by a property returning the new value. */
  lemma PropertyBranchHeap(h: Heap, inst: ObjId, attr: Name, newValue: Value, restore: bool, g: Value)
    requires WellFormed(h) && IsInstanceObj(h, inst) && !IsInstanceMethod(h, inst, attr)
    requires ClassLookup(h, Mro(h, h.kinds[inst].cls), attr) == Some(PropertyV(g))
    ensures var klass := h.kinds[inst].cls;
      PatchSpec(h, inst, attr, newValue, restore, g) ==
        Outcome(PutOwn(h, klass, attr, PropertyV(newValue)), Ok(RestoreProperty(inst, klass, attr, PropertyV(g), restore, g)))
  {
    assert ClassProperty(h, inst, attr) == Some(PropertyV(g));
  }

  /** No kind changes, and no dictionary entry except `attr` on `target` or on its class. */
  ghost predicate PatchedOnly(h: Heap, h': Heap, target: ObjId, attr: Name)
  {
    h'.kinds == h.kinds && ProxiesAgreeExcept(h.proxies, h'.proxies, target) &&
    forall ob, n :: (n != attr || (ob != target && !(IsInstanceObj(h, target) && ob == h.kinds[target].cls))) ==>
      OwnGet(h', ob, n) == OwnGet(h, ob, n)
  }

  /** `_patch` changes nothing but the patched attribute (and the override table of the patched instance). */
  lemma PatchFrame(h: Heap, target: ObjId, attr: Name, newValue: Value, restore: bool, restoreValue: Value)
    requires WellFormed(h)
    ensures PatchedOnly(h, PatchSpec(h, target, attr, newValue, restore, restoreValue).heap, target, attr)
  {
    var o := PatchSpec(h, target, attr, newValue, restore, restoreValue);
    if IsInstanceMethod(h, target, attr) {
      if IsInstanceObj(h, target) {
        MockInstanceAttributeFrame(h, target, attr, newValue);
      }
    } else if ClassProperty(h, target, attr).Some? {
      var klass := h.kinds[target].cls;
      if SetAttr(h, klass, attr, PropertyV(newValue)).Ok? {
        SetAttrFrame(h, klass, attr, PropertyV(newValue));
      }
    } else if SetAttr(h, target, attr, newValue).Ok? {
      SetAttrFrame(h, target, attr, newValue);
    }
  }

  lemma MockInstanceAttributeFrame(h: Heap, inst: ObjId, attr: Name, value: Value)
    requires WellFormed(h) && IsInstanceObj(h, inst)
    ensures PatchedOnly(h, MockInstanceAttributeSpec(h, inst, attr, value).heap, inst, attr)
  {
    MockInstanceAttributeHeap(h, inst, attr, value);
  }

  // -----------------------------------------------------------------------
  // The unpatchers as written lose falsy originals

  /** A module attribute holding a falsy value is deleted, not restored, by the plain-branch unpatcher. */
  lemma FalsyAttributeDeleted(h: Heap, m: ObjId, attr: Name, newValue: Value)
    requires m in h.kinds && h.kinds[m].Module? && HasOwn(h, m, attr) && !Truthy(h.dicts[m][attr])
    ensures var orig := h.dicts[m][attr];
      var o := PatchSpec(h, m, attr, newValue, true, orig);
      GetAttr(h, m, attr) == Ok(orig) && o.result.Ok? &&
      UndoAsWritten(o.heap, o.result.value).Ok? &&
      GetAttr(UndoAsWritten(o.heap, o.result.value).value, m, attr) == Err(AttributeError) &&
      Undo(o.heap, o.result.value).Ok? &&
      GetAttr(Undo(o.heap, o.result.value).value, m, attr) == Ok(orig)
  {
  }

  /** A property whose value is falsy: the unpatcher as written tries to delete it on the instance and fails. */
  lemma FalsyPropertyNotRestored(h: Heap, inst: ObjId, attr: Name, newValue: Value, g: Value)
    requires WellFormed(h) && IsInstanceObj(h, inst) && !IsInstanceMethod(h, inst, attr)
    requires ClassLookup(h, Mro(h, h.kinds[inst].cls), attr) == Some(PropertyV(g)) && !Truthy(g)
    ensures var o := PatchSpec(h, inst, attr, newValue, true, g);
      o.result.Ok? && UndoAsWritten(o.heap, o.result.value) == Err(AttributeError)
  {
    PropertyBranchHeap(h, inst, attr, newValue, true, g);
    var klass := h.kinds[inst].cls;
    var h' := PutOwn(h, klass, attr, PropertyV(newValue));
    assert Mro(h', klass)[0] == klass;
    assert ClassLookup(h', Mro(h', klass), attr) == Some(PropertyV(newValue));
  }

  /** A class entry holding a falsy value is dropped by `unpatch_class` as written. */
  lemma FalsyClassEntryDropped(h: Heap, inst: ObjId, attr: Name, value: Value)
    requires WellFormed(h) && IsInstanceObj(h, inst)
    requires HasOwn(h, h.kinds[inst].cls, attr) && !Truthy(h.dicts[h.kinds[inst].cls][attr])
    ensures var o := MockInstanceAttributeSpec(h, inst, attr, value);
      o.result.Ok? && UndoAsWritten(o.heap, o.result.value).Ok? &&
      !HasOwn(UndoAsWritten(o.heap, o.result.value).value, h.kinds[inst].cls, attr)
  {
    MockInstanceAttributeHeap(h, inst, attr, value);
  }
}
