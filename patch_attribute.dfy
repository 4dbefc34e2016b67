/**
 * `patch_attribute` and its two module-level tables
 * (testslide/patch_attribute.py): the value to restore per
 * `(id(target), attribute)` key and the unpatcher per key, drained by
 * `unpatch_all_mocked_attributes`.
 *
 * Targets are objects of the heap; importing a target given by name is
 * not part of this model.
 */
module PatchAttribute {
  import opened Values
  import opened ObjectModel
  import opened Patch
  import opened Lib

  type Key = (ObjId, Name)

  /** The tables: `_restore_values`, and `_unpatchers` with its insertion order. */
  datatype Tables = Tables(restoreValues: map<Key, Value>, order: seq<Key>, unpatchers: map<Key, Unpatcher>)

  const EmptyTables := Tables(map[], [], map[])

  /** `order` lists each key of `unpatchers` once. */
  ghost predicate TablesOk(t: Tables)
  {
    (forall i, j :: 0 <= i < j < |t.order| ==> t.order[i] != t.order[j]) &&
    (forall k :: k in t.order <==> k in t.unpatchers)
  }

  /** What `patch_attribute` decides before patching. */
  datatype Plan = Plan(restore: bool, restoreValue: Value, skipUnpatcher: bool)

  /**
   * The decision of testslide/patch_attribute.py:58-99.  For a StrictMock
   * the code as written always stores the new unpatcher
   * (`keepFirstForDouble == false`); the intended behaviour keeps the first
   * one, as for every other target (`keepFirstForDouble == true`).
   */
  function PlanFor(h: Heap, t: Tables, target: ObjId, attr: Name, keepFirstForDouble: bool): Result<Plan, ExcKind>
  {
    var key := (target, attr);
    if target in h.kinds && h.kinds[target].Double? then
      var template := h.kinds[target].template;
      if template.Some? && attr !in template.value then Err(AttributeError)
      else if template.Some? && !IsClass(template.value[attr]) && Callable(template.value[attr]) then Err(ValueError)
      else
        var skip := keepFirstForDouble && key in t.unpatchers;
        var current := GetAttr(h, target, attr);
        if current.Ok? && key !in t.unpatchers then Ok(Plan(true, current.value, skip))
        else Ok(Plan(false, NoneV, skip))
    else
      var current :=
        if key in t.unpatchers then
          (if key in t.restoreValues then Ok(t.restoreValues[key]) else Err(KeyError))
        else GetAttr(h, target, attr);
      if current.Err? then Err(current.error)
      else if IsClass(current.value) then Err(ValueError)
      else if Callable(current.value) then Err(ValueError)
      else if key in t.unpatchers then Ok(Plan(false, current.value, true))
      else Ok(Plan(true, current.value, false))
  }

  /** `_unpatchers[key] = unpatcher`: a new key goes to the end, an existing one keeps its place. */
  function Register(t: Tables, key: Key, u: Unpatcher): (r: Tables)
    ensures TablesOk(t) ==> TablesOk(r)
    ensures r.unpatchers == t.unpatchers[key := u] && r.restoreValues == t.restoreValues
    ensures key in t.unpatchers ==> r.order == t.order
    ensures key !in t.unpatchers ==> r.order == t.order + [key]
  {
    Tables(t.restoreValues, if key in t.unpatchers then t.order else t.order + [key], t.unpatchers[key := u])
  }

  /** The heap and tables after a call, and the exception it raised if any. */
  datatype Step = Step(heap: Heap, tables: Tables, err: Option<ExcKind>)

  function PatchAttributeWith(h: Heap, t: Tables, target: ObjId, attr: Name, newValue: Value, allowPrivate: bool,
                              keepFirstForDouble: bool): Step
  {
    if BailIfPrivate(attr, allowPrivate).Some? then Step(h, t, BailIfPrivate(attr, allowPrivate))
    else
      var key := (target, attr);
      match PlanFor(h, t, target, attr, keepFirstForDouble)
      case Err(e) => Step(h, t, Some(e))
      case Ok(plan) => Carry(h, t, target, attr, newValue, plan)
  }

  /** Carrying out a plan: record the value to restore, patch, then register the unpatcher. */
  function Carry(h: Heap, t: Tables, target: ObjId, attr: Name, newValue: Value, plan: Plan): Step
  {
    var key := (target, attr);
    var t1 := if plan.restore then t.(restoreValues := t.restoreValues[key := plan.restoreValue]) else t;
    var o := PatchSpec(h, target, attr, newValue, plan.restore, plan.restoreValue);
    if o.result.Err? then Step(o.heap, t1, Some(o.result.error))
    else if plan.skipUnpatcher then Step(o.heap, t1, None)
    else Step(o.heap, Register(t1, key, o.result.value), None)
  }

  /**
   * `patch_attribute` as written.  It differs from the intended version only
   * on a StrictMock whose key is already registered, where it replaces the
   * registered unpatcher by one that deletes.
   */
  function PatchAttributeAsWritten(h: Heap, t: Tables, target: ObjId, attr: Name, newValue: Value, allowPrivate: bool): (r: Step)
    ensures !(target in h.kinds && h.kinds[target].Double? && (target, attr) in t.unpatchers) ==>
      r == PatchAttributeSpec(h, t, target, attr, newValue, allowPrivate)
    ensures target in h.kinds && h.kinds[target].Double? && (target, attr) in t.unpatchers && r.err.None? ==>
      r.tables == Register(t, (target, attr), RestoreAttribute(target, attr, false, NoneV))
  {
    PatchAttributeWith(h, t, target, attr, newValue, allowPrivate, false)
  }

  /** `patch_attribute` as intended: a re-patch never replaces the first unpatcher. */
  function PatchAttributeSpec(h: Heap, t: Tables, target: ObjId, attr: Name, newValue: Value, allowPrivate: bool): Step
  {
    PatchAttributeWith(h, t, target, attr, newValue, allowPrivate, true)
  }

  /** Running unpatchers in order: the final heap and the exceptions raised, in order. */
  function UndoAll(h: Heap, us: seq<Unpatcher>): (Heap, seq<ExcKind>)
  {
    if us == [] then (h, [])
    else
      var prev := UndoAll(h, us[..|us| - 1]);
      match Undo(prev.0, us[|us| - 1])
      case Ok(h') => (h', prev.1)
      case Err(e) => (prev.0, prev.1 + [e])
  }

  /** The unpatchers in `_unpatchers`' iteration order. */
  function InOrder(t: Tables): seq<Unpatcher>
    requires TablesOk(t)
  {
    seq(|t.order|, i requires 0 <= i < |t.order| => t.unpatchers[t.order[i]])
  }

  /**
   * The module-level state of testslide/patch_attribute.py:14-15 and the two
   * functions that change it.
   */
  class AttributePatcher {
    var restoreValues: map<Key, Value>
    var order: seq<Key>
    var unpatchers: map<Key, Unpatcher>

    function State(): Tables
      reads this
    {
      Tables(restoreValues, order, unpatchers)
    }

    ghost predicate Valid()
      reads this
    {
      TablesOk(State())
    }

    constructor ()
      ensures Valid() && State() == EmptyTables
    {
      restoreValues := map[];
      order := [];
      unpatchers := map[];
    }

    /** `patch_attribute(target, attribute, new_value, allow_private)`. */
    method PatchAttribute(space: ObjectSpace, target: ObjId, attr: Name, newValue: Value, allowPrivate: bool)
      returns (err: Option<ExcKind>)
      requires Valid()
      modifies this, space
      ensures Valid()
      ensures Step(space.heap, State(), err) == PatchAttributeSpec(old(space.heap), old(State()), target, attr, newValue, allowPrivate)
    {
      var bail := BailIfPrivate(attr, allowPrivate);
      if bail.Some? {
        return bail;
      }
      var key := (target, attr);
      var plan := PlanFor(space.heap, State(), target, attr, true);
      if plan.Err? {
        return Some(plan.error);
      }
      err := CarryOut(space, target, attr, newValue, plan.value);
    }

    /** The part of `patch_attribute` after its checks have passed. */
    method CarryOut(space: ObjectSpace, target: ObjId, attr: Name, newValue: Value, plan: Plan)
      returns (err: Option<ExcKind>)
      requires Valid()
      modifies this, space
      ensures Valid()
      ensures Step(space.heap, State(), err) == Carry(old(space.heap), old(State()), target, attr, newValue, plan)
    {
      var key := (target, attr);
      if plan.restore {
        restoreValues := restoreValues[key := plan.restoreValue];
      }
      var u := Patch.Patch(space, target, attr, newValue, plan.restore, plan.restoreValue);
      if u.Err? {
        return Some(u.error);
      }
      if !plan.skipUnpatcher {
        if key !in unpatchers {
          order := order + [key];
        }
        unpatchers := unpatchers[key := u.value];
      }
      err := None;
    }

    /**
     * `unpatch_all_mocked_attributes()`: every unpatcher runs, in
     * insertion order, whatever the others raise; both tables end empty;
     * one RuntimeError reports the failures, if any.
     */
    method UnpatchAll(space: ObjectSpace) returns (err: Option<ExcKind>)
      requires Valid()
      modifies this, space
      ensures Valid() && State() == EmptyTables
      ensures space.heap == UndoAll(old(space.heap), InOrder(old(State()))).0
      ensures err.Some? <==> |UndoAll(old(space.heap), InOrder(old(State()))).1| > 0
      ensures err.Some? ==> err.value == RuntimeError
    {
      var us := InOrder(State());
      ghost var h0 := space.heap;
      var failures: seq<ExcKind> := [];
      var i := 0;
      while i < |us|
        invariant 0 <= i <= |us|
        invariant (space.heap, failures) == UndoAll(h0, us[..i])
      {
        assert us[..i + 1][..i] == us[..i];
        var e := Unpatch(space, us[i]);
        if e.Some? {
          failures := failures + [e.value];
        }
        i := i + 1;
      }
      assert us[..|us|] == us;
      restoreValues := map[];
      order := [];
      unpatchers := map[];
      if |failures| > 0 {
        err := Some(RuntimeError);
      } else {
        err := None;
      }
    }
  }

  /** The pure counterpart of `UnpatchAll`. */
  function UnpatchAllSpec(h: Heap, t: Tables): Step
    requires TablesOk(t)
  {
    var r := UndoAll(h, InOrder(t));
    Step(r.0, EmptyTables, if |r.1| > 0 then Some(RuntimeError) else None)
  }

  // -----------------------------------------------------------------------
  // Properties

  /** At most one exception per unpatcher is reported. */
  lemma {:induction false} UndoAllFailuresBounded(h: Heap, us: seq<Unpatcher>)
    ensures |UndoAll(h, us).1| <= |us|
  {
    if us != [] {
      UndoAllFailuresBounded(h, us[..|us| - 1]);
    }
  }

  /** A private name is refused before anything is looked at or changed. */
  lemma PrivateNameRefused(h: Heap, t: Tables, target: ObjId, attr: Name, newValue: Value)
    requires |attr| >= 2 && attr[0] == '_' && attr[1] != '_'
    ensures PatchAttributeSpec(h, t, target, attr, newValue, false) == Step(h, t, Some(ValueError))
  {
  }

  /** A current value that is a class or callable is refused for ordinary targets, and nothing changes. */
  lemma CallableOrClassRefused(h: Heap, t: Tables, target: ObjId, attr: Name, newValue: Value, allowPrivate: bool)
    requires BailIfPrivate(attr, allowPrivate).None?
    requires !(target in h.kinds && h.kinds[target].Double?) && (target, attr) !in t.unpatchers
    requires GetAttr(h, target, attr).Ok? && (IsClass(GetAttr(h, target, attr).value) || Callable(GetAttr(h, target, attr).value))
    ensures PatchAttributeSpec(h, t, target, attr, newValue, allowPrivate) == Step(h, t, Some(ValueError))
  {
  }

  /** A StrictMock whose template attribute is callable refuses the patch. */
  lemma CallableTemplateAttributeRefused(h: Heap, t: Tables, target: ObjId, attr: Name, newValue: Value, allowPrivate: bool)
    requires BailIfPrivate(attr, allowPrivate).None?
    requires target in h.kinds && h.kinds[target].Double? && h.kinds[target].template.Some?
    requires attr in h.kinds[target].template.value
    requires !IsClass(h.kinds[target].template.value[attr]) && Callable(h.kinds[target].template.value[attr])
    ensures PatchAttributeSpec(h, t, target, attr, newValue, allowPrivate) == Step(h, t, Some(ValueError))
  {
  }

  /**
   * The first patch of a key on an ordinary target records the value read
   * and stores the unpatcher; a later patch of the same key changes neither
   * table.
   */
  lemma FirstPatchRecords(h: Heap, t: Tables, target: ObjId, attr: Name, newValue: Value, allowPrivate: bool)
    requires TablesOk(t) && BailIfPrivate(attr, allowPrivate).None?
    requires !(target in h.kinds && h.kinds[target].Double?) && (target, attr) !in t.unpatchers
    requires PatchAttributeSpec(h, t, target, attr, newValue, allowPrivate).err.None?
    ensures var s := PatchAttributeSpec(h, t, target, attr, newValue, allowPrivate);
      GetAttr(h, target, attr).Ok? &&
      s.tables.restoreValues == t.restoreValues[(target, attr) := GetAttr(h, target, attr).value] &&
      s.tables.order == t.order + [(target, attr)] &&
      (target, attr) in s.tables.unpatchers && TablesOk(s.tables)
  {
  }

  lemma RepatchKeepsTables(h: Heap, t: Tables, target: ObjId, attr: Name, newValue: Value, allowPrivate: bool)
    requires !(target in h.kinds && h.kinds[target].Double?) && (target, attr) in t.unpatchers
    ensures PatchAttributeSpec(h, t, target, attr, newValue, allowPrivate).tables == t
  {
  }

  /** With the intended behaviour a re-patch of a StrictMock keeps the first unpatcher too. */
  lemma RepatchDoubleKeepsTables(h: Heap, t: Tables, target: ObjId, attr: Name, newValue: Value, allowPrivate: bool)
    requires target in h.kinds && h.kinds[target].Double? && (target, attr) in t.unpatchers
    ensures PatchAttributeSpec(h, t, target, attr, newValue, allowPrivate).tables == t
  {
  }

  /**
   * Round trip on a module attribute: patch once or twice, then unpatch
   * everything; the module reads its original value and both tables are
   * empty.
   */
  lemma ModuleRoundTrip(h: Heap, m: ObjId, attr: Name, v1: Value, v2: Value)
    requires m in h.kinds && h.kinds[m].Module? && HasOwn(h, m, attr)
    requires !IsClass(h.dicts[m][attr]) && !Callable(h.dicts[m][attr]) && BailIfPrivate(attr, false).None?
    ensures var s1 := PatchAttributeSpec(h, EmptyTables, m, attr, v1, false);
      var s2 := PatchAttributeSpec(s1.heap, s1.tables, m, attr, v2, false);
      s1.err.None? && s2.err.None? && TablesOk(s2.tables) &&
      GetAttr(s1.heap, m, attr) == Ok(v1) && GetAttr(s2.heap, m, attr) == Ok(v2) &&
      UnpatchAllSpec(s2.heap, s2.tables).err.None? &&
      UnpatchAllSpec(s2.heap, s2.tables).tables == EmptyTables &&
      GetAttr(UnpatchAllSpec(s2.heap, s2.tables).heap, m, attr) == Ok(h.dicts[m][attr])
  {
    var orig := h.dicts[m][attr];
    var u := RestoreAttribute(m, attr, true, orig);
    ModuleFirstPatch(h, m, attr, v1);
    var s1 := PatchAttributeSpec(h, EmptyTables, m, attr, v1, false);
    ModuleRepatch(s1.heap, s1.tables, m, attr, v2);
    assert GetAttr(s1.heap, m, attr) == Ok(v1);
    assert GetAttr(PutOwn(s1.heap, m, attr, v2), m, attr) == Ok(v2);
    UnpatchOne(s1.heap, s1.tables, m, attr, v2, u);
  }

  /** The first patch of a module attribute records its value and a restoring unpatcher. */
  lemma ModuleFirstPatch(h: Heap, m: ObjId, attr: Name, v: Value)
    requires m in h.kinds && h.kinds[m].Module? && HasOwn(h, m, attr)
    requires !IsClass(h.dicts[m][attr]) && !Callable(h.dicts[m][attr]) && BailIfPrivate(attr, false).None?
    ensures var key := (m, attr);
      PatchAttributeSpec(h, EmptyTables, m, attr, v, false) ==
        Step(PutOwn(h, m, attr, v),
             Tables(map[key := h.dicts[m][attr]], [key], map[key := RestoreAttribute(m, attr, true, h.dicts[m][attr])]),
             None)
  {
    var orig := h.dicts[m][attr];
    assert PlanFor(h, EmptyTables, m, attr, true) == Ok(Plan(true, orig, false));
    ModulePatch(h, m, attr, v, true, orig);
  }

  /** A module attribute patched again takes the new value; the tables stay as they were. */
  lemma ModuleRepatch(h: Heap, t: Tables, m: ObjId, attr: Name, v: Value)
    requires m in h.kinds && h.kinds[m].Module? && BailIfPrivate(attr, false).None?
    requires (m, attr) in t.unpatchers && (m, attr) in t.restoreValues
    requires !IsClass(t.restoreValues[(m, attr)]) && !Callable(t.restoreValues[(m, attr)])
    ensures PatchAttributeSpec(h, t, m, attr, v, false) == Step(PutOwn(h, m, attr, v), t, None)
  {
    var rv := t.restoreValues[(m, attr)];
    assert PlanFor(h, t, m, attr, true) == Ok(Plan(false, rv, true));
    ModulePatch(h, m, attr, v, false, rv);
  }

  // -----------------------------------------------------------------------
  // The StrictMock re-patch as written

  /** On a module, `_patch` is a plain `setattr` with a plain unpatcher. */
  lemma ModulePatch(h: Heap, m: ObjId, attr: Name, v: Value, restore: bool, rv: Value)
    requires m in h.kinds && h.kinds[m].Module?
    ensures PatchSpec(h, m, attr, v, restore, rv) == Outcome(PutOwn(h, m, attr, v), Ok(RestoreAttribute(m, attr, restore, rv)))
  {
  }

  /** On a StrictMock, `_patch` goes through the double's `__setattr__` and returns a plain unpatcher. */
  lemma DoublePatch(h: Heap, d: ObjId, attr: Name, v: Value, restore: bool, rv: Value)
    requires d in h.kinds && h.kinds[d].Double?
    ensures var w := DoubleStore(h.kinds[d], attr, v);
      PatchSpec(h, d, attr, v, restore, rv) ==
        if w.Ok? then Outcome(PutOwn(h, d, attr, w.value), Ok(RestoreAttribute(d, attr, restore, rv)))
        else Outcome(h, Err(w.error))
  {
  }

  /** What a StrictMock without a template stores for `v`. */
  function StoredUntemplated(v: Value): Value
  {
    DoubleStore(Double(None, {}), "", v).value
  }

  /** The first patch of a configured StrictMock attribute records a restoring unpatcher, either way. */
  lemma DoubleFirstPatch(h: Heap, d: ObjId, attr: Name, v: Value, keepFirst: bool)
    requires d in h.kinds && h.kinds[d] == Double(None, {}) && HasOwn(h, d, attr) && BailIfPrivate(attr, false).None?
    ensures var key := (d, attr);
      var orig := ReadThroughDouble(h.dicts[d][attr], d);
      PatchAttributeWith(h, EmptyTables, d, attr, v, false, keepFirst) ==
        Step(PutOwn(h, d, attr, StoredUntemplated(v)),
             Tables(map[key := orig], [key], map[key := RestoreAttribute(d, attr, true, orig)]),
             None)
  {
    var orig := ReadThroughDouble(h.dicts[d][attr], d);
    assert PlanFor(h, EmptyTables, d, attr, keepFirst) == Ok(Plan(true, orig, false));
    DoublePatch(h, d, attr, v, true, orig);
  }

  /** As written, the second patch replaces the unpatcher by one that deletes. */
  lemma DoubleSecondPatchAsWritten(h: Heap, t: Tables, d: ObjId, attr: Name, v: Value)
    requires d in h.kinds && h.kinds[d] == Double(None, {}) && BailIfPrivate(attr, false).None?
    requires t.order == [(d, attr)] && t.unpatchers.Keys == {(d, attr)}
    ensures PatchAttributeAsWritten(h, t, d, attr, v, false) ==
      Step(PutOwn(h, d, attr, StoredUntemplated(v)), t.(unpatchers := map[(d, attr) := RestoreAttribute(d, attr, false, NoneV)]), None)
  {
    var key := (d, attr);
    var u := RestoreAttribute(d, attr, false, NoneV);
    assert PlanFor(h, t, d, attr, false) == Ok(Plan(false, NoneV, false));
    DoublePatch(h, d, attr, v, false, NoneV);
    assert t.unpatchers[key := u] == map[key := u];
    assert Register(t, key, u) == t.(unpatchers := map[key := u]);
  }

  /** As intended, the second patch leaves both tables alone. */
  lemma DoubleSecondPatchSpec(h: Heap, t: Tables, d: ObjId, attr: Name, v: Value)
    requires d in h.kinds && h.kinds[d] == Double(None, {}) && BailIfPrivate(attr, false).None?
    requires (d, attr) in t.unpatchers
    ensures PatchAttributeSpec(h, t, d, attr, v, false) == Step(PutOwn(h, d, attr, StoredUntemplated(v)), t, None)
  {
    assert PlanFor(h, t, d, attr, true) == Ok(Plan(false, NoneV, true));
    DoublePatch(h, d, attr, v, false, NoneV);
  }

  /**
   * A StrictMock with a configured value, patched twice and unpatched: as
   * written, the second unpatcher (which deletes) replaces the first (which
   * restores), and the configured value is gone.
   */
  lemma DoubleRepatchLosesValue(h: Heap, d: ObjId, attr: Name, v1: Value, v2: Value)
    requires d in h.kinds && h.kinds[d] == Double(None, {}) && HasOwn(h, d, attr) && BailIfPrivate(attr, false).None?
    ensures var a1 := PatchAttributeAsWritten(h, EmptyTables, d, attr, v1, false);
      var a2 := PatchAttributeAsWritten(a1.heap, a1.tables, d, attr, v2, false);
      TablesOk(a2.tables) && GetAttr(UnpatchAllSpec(a2.heap, a2.tables).heap, d, attr) == Err(AttributeError)
  {
    DoubleFirstPatch(h, d, attr, v1, false);
    var a1 := PatchAttributeAsWritten(h, EmptyTables, d, attr, v1, false);
    DoubleSecondPatchAsWritten(a1.heap, a1.tables, d, attr, v2);
    UnpatchOne(a1.heap, PatchAttributeAsWritten(a1.heap, a1.tables, d, attr, v2, false).tables, d, attr,
      StoredUntemplated(v2), RestoreAttribute(d, attr, false, NoneV));
  }

  /**
   * Unpatching a StrictMock (without a template) or module attribute that
   * holds `v` and whose one unpatcher is `u`: the attribute reads the saved
   * value again, or is gone.
   */
  lemma UnpatchOne(h: Heap, t: Tables, d: ObjId, attr: Name, v: Value, u: Unpatcher)
    requires d in h.kinds && (h.kinds[d] == Double(None, {}) || h.kinds[d].Module?)
    requires t.order == [(d, attr)] && t.unpatchers == map[(d, attr) := u]
    requires u.RestoreAttribute? && u.target == d && u.attr == attr
    ensures TablesOk(t)
    ensures UnpatchAllSpec(PutOwn(h, d, attr, v), t).err.None?
    ensures GetAttr(UnpatchAllSpec(PutOwn(h, d, attr, v), t).heap, d, attr) ==
      if u.restore then Ok(u.restoreValue) else Err(AttributeError)
  {
    var h2 := PutOwn(h, d, attr, v);
    assert InOrder(t) == [u];
    assert HasOwn(h2, d, attr);
    var stored := if h.kinds[d].Module? then u.restoreValue else StoredUntemplated(u.restoreValue);
    var h3 := if u.restore then PutOwn(h2, d, attr, stored) else DropOwn(h2, d, attr);
    assert Undo(h2, u) == Ok(h3);
    assert UndoAll(h2, [u]) == (h3, []);
    assert h3.kinds == h.kinds;
    assert HasOwn(h3, d, attr) == u.restore;
    if u.restore && h.kinds[d].Double? {
      assert h3 == SetAttr(h2, d, attr, u.restoreValue).value;
      DoubleSetThenGet(h2, d, attr, u.restoreValue);
    }
  }

  /** As intended, the same sequence gives the configured value back. */
  lemma DoubleRepatchRoundTrip(h: Heap, d: ObjId, attr: Name, v1: Value, v2: Value)
    requires d in h.kinds && h.kinds[d] == Double(None, {}) && HasOwn(h, d, attr) && BailIfPrivate(attr, false).None?
    ensures var c1 := PatchAttributeSpec(h, EmptyTables, d, attr, v1, false);
      var c2 := PatchAttributeSpec(c1.heap, c1.tables, d, attr, v2, false);
      TablesOk(c2.tables) && GetAttr(UnpatchAllSpec(c2.heap, c2.tables).heap, d, attr) == GetAttr(h, d, attr)
  {
    DoubleFirstPatch(h, d, attr, v1, true);
    var c1 := PatchAttributeSpec(h, EmptyTables, d, attr, v1, false);
    DoubleSecondPatchSpec(c1.heap, c1.tables, d, attr, v2);
    UnpatchOne(c1.heap, c1.tables, d, attr, StoredUntemplated(v2), RestoreAttribute(d, attr, true, ReadThroughDouble(h.dicts[d][attr], d)));
  }
}
