/**
 * The part of Python's object model that attribute patching relies on.
 *
 * Every object has a `__dict__`; a class also has its method resolution
 * order (itself first); an instance points to its class.  Descriptors are
 * values stored in class dictionaries: functions, staticmethod, classmethod,
 * property, and the patcher's `_DescriptorProxy` (testslide/patch.py:10-44),
 * which keeps a per-instance override table and is consulted before the
 * instance's own dictionary because it defines `__set__`.
 */
module ObjectModel {
  import opened Values

  datatype Kind =
    | Module
    | Class(mro: seq<ObjId>)
    | Instance(cls: ObjId)
      /**
       * A StrictMock instance.  Its entries in `dicts` are those of the class
       * made for it, where its `__setattr__` stores.  `template` holds the
       * attributes `hasattr` finds on the template class, if there is one;
       * `otherNames` are the further names the template guard accepts
       * (runtime attributes, `__slots__`, names an `__init__` stores).
       */
    | Double(template: Option<map<Name, Value>>, otherNames: set<Name>)

  /** A `_DescriptorProxy`: the class attribute it replaced (None if there was none) and the per-instance table. */
  datatype Proxy = Proxy(original: Value, attrName: Name, instanceAttrMap: map<ObjId, Value>)

  datatype Heap = Heap(kinds: map<ObjId, Kind>, dicts: map<ObjId, map<Name, Value>>, proxies: seq<Proxy>)

  /**
   * Every instance points to a class; every class's MRO starts with itself,
   * lists classes only, and lists each once.
   */
  ghost predicate KindsOk(kinds: map<ObjId, Kind>)
  {
    (forall o :: o in kinds && kinds[o].Instance? ==>
       kinds[o].cls in kinds && kinds[kinds[o].cls].Class?) &&
    (forall o :: o in kinds && kinds[o].Class? ==>
       |kinds[o].mro| > 0 && kinds[o].mro[0] == o &&
       (forall i :: 0 <= i < |kinds[o].mro| ==> kinds[o].mro[i] in kinds && kinds[kinds[o].mro[i]].Class?) &&
       (forall i, j :: 0 <= i < j < |kinds[o].mro| ==> kinds[o].mro[i] != kinds[o].mro[j]))
  }

  /** A proxy only ever wraps a proxy created before it. */
  ghost predicate ProxiesOk(proxies: seq<Proxy>)
  {
    forall p :: 0 <= p < |proxies| && proxies[p].original.ProxyV? ==> proxies[p].original.pid < p
  }

  ghost predicate WellFormed(h: Heap)
  {
    KindsOk(h.kinds) && h.kinds.Keys <= h.dicts.Keys && ProxiesOk(h.proxies)
  }

  predicate IsClassObj(h: Heap, o: ObjId)
  {
    o in h.kinds && h.kinds[o].Class?
  }

  predicate IsInstanceObj(h: Heap, o: ObjId)
  {
    o in h.kinds && h.kinds[o].Instance?
  }

  /** `klass.mro()`, or empty for an object that is not a class. */
  function Mro(h: Heap, klass: ObjId): seq<ObjId>
  {
    if IsClassObj(h, klass) then h.kinds[klass].mro else []
  }

  /** `o.__dict__.get(name, None)`, with a missing entry read as None. */
  function OwnGet(h: Heap, o: ObjId, name: Name): Value
  {
    if o in h.dicts && name in h.dicts[o] then h.dicts[o][name] else NoneV
  }

  predicate HasOwn(h: Heap, o: ObjId, name: Name)
  {
    o in h.dicts && name in h.dicts[o]
  }

  /** The first class of `mro` whose dictionary holds `name`, with the value held. */
  function ClassLookup(h: Heap, mro: seq<ObjId>, name: Name): Option<Value>
  {
    if mro == [] then None
    else if HasOwn(h, mro[0], name) then Some(h.dicts[mro[0]][name])
    else ClassLookup(h, mro[1..], name)
  }

  /** A class lookup finds something iff some class of `mro` holds `name`, and then it is the first such class's entry. */
  lemma {:induction false} ClassLookupFirst(h: Heap, mro: seq<ObjId>, name: Name)
    ensures ClassLookup(h, mro, name).Some? <==> exists i :: 0 <= i < |mro| && HasOwn(h, mro[i], name)
    ensures ClassLookup(h, mro, name).Some? ==>
      exists i :: (0 <= i < |mro| && HasOwn(h, mro[i], name) && ClassLookup(h, mro, name).value == h.dicts[mro[i]][name] &&
                   forall j :: 0 <= j < i ==> !HasOwn(h, mro[j], name))
  {
    if mro != [] && !HasOwn(h, mro[0], name) {
      ClassLookupFirst(h, mro[1..], name);
      assert forall i :: 0 < i < |mro| ==> mro[i] == mro[1..][i - 1];
      if ClassLookup(h, mro, name).Some? {
        var i :| 0 <= i < |mro[1..]| && HasOwn(h, mro[1..][i], name) && ClassLookup(h, mro, name).value == h.dicts[mro[1..][i]][name] &&
                 forall j :: 0 <= j < i ==> !HasOwn(h, mro[1..][j], name);
        assert 0 <= i + 1 < |mro| && HasOwn(h, mro[i + 1], name) && ClassLookup(h, mro, name).value == h.dicts[mro[i + 1]][name] &&
               forall j :: 0 <= j < i + 1 ==> !HasOwn(h, mro[j], name);
      }
    }
  }

  /** Descriptors that take precedence over the instance dictionary. */
  predicate IsDataDescriptor(v: Value)
  {
    v.PropertyV? || v.ProxyV?
  }

  /** An explicit `v.__get__(instance, owner)` call (AttributeError when `v` has no `__get__`). */
  function DunderGet(h: Heap, v: Value, inst: ObjId, owner: ObjId): Result<Value, ExcKind>
    decreases if v.ProxyV? then v.pid + 1 else 0, 1
  {
    match v
    case FuncV(f) => Ok(MethodV(f, inst))
    case StaticMethodV(x) => Ok(x)
    case ClassMethodV(x) => if x.FuncV? then Ok(MethodV(x.fid, owner)) else Ok(x)
    case PropertyV(g) => Ok(g)
    case ProxyV(pid) => ProxyGet(h, pid, inst, owner)
    case _ => Err(AttributeError)
  }

  /**
   * `_DescriptorProxy.__get__(instance, owner)` for an instance: the
   * instance's own override, else the replaced class attribute bound to the
   * instance, else the first later class in `owner`'s MRO holding a truthy
   * entry that is not a proxy (testslide/patch.py:23-40).
   */
  function ProxyGet(h: Heap, pid: nat, inst: ObjId, owner: ObjId): Result<Value, ExcKind>
    decreases pid + 1, 0
  {
    if pid >= |h.proxies| then Err(AttributeError)
    else
      var p := h.proxies[pid];
      if inst in p.instanceAttrMap then Ok(p.instanceAttrMap[inst])
      else if Truthy(p.original) then
        if p.original.ProxyV? && p.original.pid >= pid then Err(AttributeError)
        else DunderGet(h, p.original, inst, owner)
      else
        var parents := if |Mro(h, owner)| > 0 then Mro(h, owner)[1..] else [];
        var m := FallbackEntry(h, parents, p.attrName);
        if m.Some? then
          if m.value.ProxyV? then Err(AttributeError) else DunderGet(h, m.value, inst, owner)
        else Err(AttributeError)
  }

  /** The proxy's MRO fallback: skip proxies and falsy entries (testslide/patch.py:34-39). */
  function FallbackEntry(h: Heap, parents: seq<ObjId>, name: Name): (r: Option<Value>)
    ensures r.Some? ==> Truthy(r.value) && !r.value.ProxyV?
    ensures r.Some? ==> exists i :: 0 <= i < |parents| && OwnGet(h, parents[i], name) == r.value
    ensures r.None? ==> forall i :: 0 <= i < |parents| ==>
      OwnGet(h, parents[i], name).ProxyV? || !Truthy(OwnGet(h, parents[i], name))
  {
    if parents == [] then None
    else
      var m := OwnGet(h, parents[0], name);
      if m.ProxyV? then FallbackEntry(h, parents[1..], name)
      else if Truthy(m) then Some(m)
      else FallbackEntry(h, parents[1..], name)
  }

  /** What a descriptor found on a class gives when read through an instance. */
  function BindToInstance(h: Heap, v: Value, inst: ObjId, owner: ObjId): Result<Value, ExcKind>
  {
    match v
    case FuncV(_) => DunderGet(h, v, inst, owner)
    case StaticMethodV(_) => DunderGet(h, v, inst, owner)
    case ClassMethodV(_) => DunderGet(h, v, inst, owner)
    case PropertyV(_) => DunderGet(h, v, inst, owner)
    case ProxyV(_) => DunderGet(h, v, inst, owner)
    case _ => Ok(v)
  }

  /** What a descriptor found on a class gives when read through the class itself. */
  function BindToClass(v: Value, klass: ObjId): Value
  {
    match v
    case StaticMethodV(x) => x
    case ClassMethodV(x) => if x.FuncV? then MethodV(x.fid, klass) else x
    case _ => v
  }

  /** `getattr(o, name)`. */
  function GetAttr(h: Heap, o: ObjId, name: Name): Result<Value, ExcKind>
  {
    if o !in h.kinds then Err(AttributeError)
    else match h.kinds[o]
      case Module => if HasOwn(h, o, name) then Ok(h.dicts[o][name]) else Err(AttributeError)
      case Double(template, otherNames) =>
        if HasOwn(h, o, name) then Ok(ReadThroughDouble(h.dicts[o][name], o))
        else if template.Some? && (name in template.value || name in otherNames) then Err(UndefinedAttribute)
        else Err(AttributeError)
      case Class(mro) =>
        var found := ClassLookup(h, mro, name);
        if found.Some? then Ok(BindToClass(found.value, o)) else Err(AttributeError)
      case Instance(cls) =>
        var found := ClassLookup(h, Mro(h, cls), name);
        if found.Some? && IsDataDescriptor(found.value) then BindToInstance(h, found.value, o, cls)
        else if HasOwn(h, o, name) then Ok(h.dicts[o][name])
        else if found.Some? then BindToInstance(h, found.value, o, cls)
        else Err(AttributeError)
  }

  /**
   * StrictMock's `__setattr__` (testslide/strict_mock.py:244-264): the value
   * stored in the double's class, or the exception raised.  A name the
   * template guard does not know is refused; where the template's attribute
   * is callable the value must be callable too; a callable value is wrapped
   * in `staticmethod` where the template's attribute is callable, or always
   * when there is no template.
   */
  function DoubleStore(k: Kind, name: Name, v: Value): (r: Result<Value, ExcKind>)
    requires k.Double?
  {
    match k.template
    case Some(t) =>
      if name !in t && name !in k.otherNames then Err(NonExistentAttribute)
      else if name in t && Callable(t[name]) then
        if Callable(v) then Ok(StaticMethodV(v)) else Err(NonCallableValue)
      else Ok(v)
    case None => if Callable(v) then Ok(StaticMethodV(v)) else Ok(v)
  }

  /** An entry of a double's class read through the double: a staticmethod gives its function, a function binds. */
  function ReadThroughDouble(v: Value, o: ObjId): Value
  {
    match v
    case StaticMethodV(x) => x
    case FuncV(f) => MethodV(f, o)
    case _ => v
  }

  function PutOwn(h: Heap, o: ObjId, name: Name, v: Value): Heap
  {
    var d := if o in h.dicts then h.dicts[o] else map[];
    h.(dicts := h.dicts[o := d[name := v]])
  }

  function DropOwn(h: Heap, o: ObjId, name: Name): Heap
    requires HasOwn(h, o, name)
  {
    h.(dicts := h.dicts[o := h.dicts[o] - {name}])
  }

  /**
   * `setattr(o, name, v)`; on an instance a proxy's `__set__` files the
   * value per instance; a StrictMock goes through its own `__setattr__`.
   */
  function SetAttr(h: Heap, o: ObjId, name: Name, v: Value): (r: Result<Heap, ExcKind>)
  {
    if o !in h.kinds then Err(AttributeError)
    else match h.kinds[o]
      case Instance(cls) =>
        var found := ClassLookup(h, Mro(h, cls), name);
        if found.Some? && found.value.PropertyV? then Err(AttributeError)
        else if found.Some? && found.value.ProxyV? then
          var pid := found.value.pid;
          if pid < |h.proxies| then
            var p := h.proxies[pid];
            Ok(h.(proxies := h.proxies[pid := p.(instanceAttrMap := p.instanceAttrMap[o := v])]))
          else Err(AttributeError)
        else Ok(PutOwn(h, o, name, v))
      case Double(_, _) =>
        var stored := DoubleStore(h.kinds[o], name, v);
        if stored.Err? then Err(stored.error) else Ok(PutOwn(h, o, name, stored.value))
      case _ => Ok(PutOwn(h, o, name, v))
  }

  /**
   * `delattr(o, name)`.  A proxy's `__delete__` tests membership of the
   * instance object in a table keyed by ids, so it never deletes anything
   * (testslide/patch.py:42-44).  A StrictMock deletes only what it holds.
   */
  function DelAttr(h: Heap, o: ObjId, name: Name): (r: Result<Heap, ExcKind>)
  {
    if o !in h.kinds then Err(AttributeError)
    else match h.kinds[o]
      case Instance(cls) =>
        var found := ClassLookup(h, Mro(h, cls), name);
        if found.Some? && found.value.PropertyV? then Err(AttributeError)
        else if found.Some? && found.value.ProxyV? then Ok(h)
        else if HasOwn(h, o, name) then Ok(DropOwn(h, o, name))
        else Err(AttributeError)
      case Double(_, _) => if HasOwn(h, o, name) then Ok(DropOwn(h, o, name)) else Ok(h)
      case _ => if HasOwn(h, o, name) then Ok(DropOwn(h, o, name)) else Err(AttributeError)
  }

  /**
   * The interpreter's object graph.  `setattr` and `delattr` change it in
   * place; the patchers below act on it through these two methods.
   */
  class ObjectSpace {
    var heap: Heap

    constructor (h: Heap)
      ensures heap == h
    {
      heap := h;
    }

    method SetAttribute(o: ObjId, name: Name, v: Value) returns (err: Option<ExcKind>)
      modifies this
      ensures SetAttr(old(heap), o, name, v).Ok? ==> err.None? && heap == SetAttr(old(heap), o, name, v).value
      ensures SetAttr(old(heap), o, name, v).Err? ==> err == Some(SetAttr(old(heap), o, name, v).error) && heap == old(heap)
    {
      var r := SetAttr(heap, o, name, v);
      if r.Ok? { heap := r.value; err := None; } else { err := Some(r.error); }
    }

    method DeleteAttribute(o: ObjId, name: Name) returns (err: Option<ExcKind>)
      modifies this
      ensures DelAttr(old(heap), o, name).Ok? ==> err.None? && heap == DelAttr(old(heap), o, name).value
      ensures DelAttr(old(heap), o, name).Err? ==> err == Some(DelAttr(old(heap), o, name).error) && heap == old(heap)
    {
      var r := DelAttr(heap, o, name);
      if r.Ok? { heap := r.value; err := None; } else { err := Some(r.error); }
    }

    /** `_DescriptorProxy(original_class_attr, attr_name)`: a new proxy with an empty table. */
    method NewProxy(original: Value, attrName: Name) returns (pid: nat)
      modifies this
      ensures pid == |old(heap).proxies|
      ensures heap == old(heap).(proxies := old(heap).proxies + [Proxy(original, attrName, map[])])
    {
      pid := |heap.proxies|;
      heap := heap.(proxies := heap.proxies + [Proxy(original, attrName, map[])]);
    }
  }

  // -----------------------------------------------------------------------
  // Lemmas about the descriptor proxy

  /** A class-level read of a proxy returns the proxy itself (`instance is None`). */
  lemma ProxyReadThroughClass(h: Heap, klass: ObjId, name: Name, pid: nat)
    requires IsClassObj(h, klass) && ClassLookup(h, Mro(h, klass), name) == Some(ProxyV(pid))
    ensures GetAttr(h, klass, name) == Ok(ProxyV(pid))
  {
  }

  /** An instance with an override reads the override, whatever its own dictionary holds. */
  lemma ProxyOverrideWins(h: Heap, inst: ObjId, name: Name, pid: nat)
    requires IsInstanceObj(h, inst)
    requires ClassLookup(h, Mro(h, h.kinds[inst].cls), name) == Some(ProxyV(pid))
    requires pid < |h.proxies| && inst in h.proxies[pid].instanceAttrMap
    ensures GetAttr(h, inst, name) == Ok(h.proxies[pid].instanceAttrMap[inst])
  {
    var cls := h.kinds[inst].cls;
    assert ProxyGet(h, pid, inst, cls) == Ok(h.proxies[pid].instanceAttrMap[inst]);
    assert BindToInstance(h, ProxyV(pid), inst, cls) == ProxyGet(h, pid, inst, cls);
  }

  /** Class lookups read nothing but the dictionaries. */
  lemma {:induction false} ClassLookupSameDicts(h: Heap, h': Heap, mro: seq<ObjId>, name: Name)
    requires h.dicts == h'.dicts
    ensures ClassLookup(h, mro, name) == ClassLookup(h', mro, name)
  {
    if mro != [] { ClassLookupSameDicts(h, h', mro[1..], name); }
  }

  /** Writing an entry of an object outside `mro` does not change lookups along `mro`. */
  lemma {:induction false} ClassLookupOtherDict(h: Heap, o: ObjId, name: Name, v: Value, mro: seq<ObjId>)
    requires o !in mro
    ensures ClassLookup(PutOwn(h, o, name, v), mro, name) == ClassLookup(h, mro, name)
  {
    if mro != [] { ClassLookupOtherDict(h, o, name, v, mro[1..]); }
  }

  /**
   * Setting an attribute on an instance and reading it back gives the value
   * set, whether it went to a proxy's table or to the instance dictionary.
   */
  lemma SetThenGet(h: Heap, inst: ObjId, name: Name, v: Value)
    requires KindsOk(h.kinds) && IsInstanceObj(h, inst)
    requires SetAttr(h, inst, name, v).Ok?
    ensures GetAttr(SetAttr(h, inst, name, v).value, inst, name) == Ok(v)
  {
    var cls := h.kinds[inst].cls;
    var h' := SetAttr(h, inst, name, v).value;
    var found := ClassLookup(h, Mro(h, cls), name);
    if found.Some? && found.value.ProxyV? {
      ClassLookupSameDicts(h, h', Mro(h, cls), name);
      ProxyOverrideWins(h', inst, name, found.value.pid);
    } else {
      assert inst !in Mro(h, cls);
      ClassLookupOtherDict(h, inst, name, v, Mro(h, cls));
    }
  }

  /** The proxy's fallback finds what a class lookup finds, when that is truthy and not a proxy. */
  lemma {:induction false} FallbackFindsLookup(h: Heap, ps: seq<ObjId>, n: Name)
    requires ClassLookup(h, ps, n).Some? && Truthy(ClassLookup(h, ps, n).value) && !ClassLookup(h, ps, n).value.ProxyV?
    ensures FallbackEntry(h, ps, n) == ClassLookup(h, ps, n)
  {
    if !HasOwn(h, ps[0], n) {
      FallbackFindsLookup(h, ps[1..], n);
    }
  }

  /** The proxy's fallback reads only the entries of `ps` under `n`. */
  lemma {:induction false} FallbackFrame(h: Heap, h': Heap, ps: seq<ObjId>, n: Name)
    requires forall i :: 0 <= i < |ps| ==> OwnGet(h, ps[i], n) == OwnGet(h', ps[i], n)
    ensures FallbackEntry(h, ps, n) == FallbackEntry(h', ps, n)
  {
    if ps != [] {
      assert OwnGet(h, ps[0], n) == OwnGet(h', ps[0], n);
      FallbackFrame(h, h', ps[1..], n);
    }
  }

  /** Two proxy tables agree except on the overrides filed for `o`; the second may have more proxies. */
  ghost predicate ProxiesAgreeExcept(ps: seq<Proxy>, ps': seq<Proxy>, o: ObjId)
  {
    |ps| <= |ps'| &&
    forall p :: 0 <= p < |ps| ==>
      ps'[p].original == ps[p].original && ps'[p].attrName == ps[p].attrName &&
      ps'[p].instanceAttrMap - {o} == ps[p].instanceAttrMap - {o}
  }

  /** `setattr(o, n, v)` changes no kind, no dictionary entry but `(o, n)`, and no override but `o`'s. */
  lemma SetAttrFrame(h: Heap, o: ObjId, n: Name, v: Value)
    requires SetAttr(h, o, n, v).Ok?
    ensures var h' := SetAttr(h, o, n, v).value;
      h'.kinds == h.kinds && ProxiesAgreeExcept(h.proxies, h'.proxies, o) && |h'.proxies| == |h.proxies| &&
      (!IsInstanceObj(h, o) ==> h'.proxies == h.proxies) &&
      (forall ob, m :: ob != o || m != n ==> OwnGet(h', ob, m) == OwnGet(h, ob, m) && (HasOwn(h', ob, m) <==> HasOwn(h, ob, m)))
  {
    var h' := SetAttr(h, o, n, v).value;
    forall p | 0 <= p < |h.proxies|
      ensures h'.proxies[p].instanceAttrMap - {o} == h.proxies[p].instanceAttrMap - {o}
    {
    }
  }

  /**
   * A StrictMock accepts `v` under `n` and reads it back: the value was
   * wrapped in `staticmethod`, or is neither a function (which would bind)
   * nor a staticmethod (which would unwrap).
   */
  predicate DoubleReadsBack(k: Kind, n: Name, v: Value)
    requires k.Double?
  {
    DoubleStore(k, n, v).Ok? && (DoubleStore(k, n, v).value == StaticMethodV(v) || !(v.FuncV? || v.StaticMethodV?))
  }

  /**
   * Setting an attribute on a StrictMock and reading it back gives the value
   * set exactly when `DoubleReadsBack` holds, which it always does without
   * a template.
   */
  lemma DoubleSetThenGet(h: Heap, o: ObjId, n: Name, v: Value)
    requires o in h.kinds && h.kinds[o].Double? && SetAttr(h, o, n, v).Ok?
    ensures GetAttr(SetAttr(h, o, n, v).value, o, n) == Ok(v) <==> DoubleReadsBack(h.kinds[o], n, v)
    ensures h.kinds[o].template.None? ==> DoubleReadsBack(h.kinds[o], n, v)
  {
    var stored := DoubleStore(h.kinds[o], n, v).value;
    var h' := SetAttr(h, o, n, v).value;
    assert h' == PutOwn(h, o, n, stored);
    assert GetAttr(h', o, n) == Ok(ReadThroughDouble(stored, o));
    if v.StaticMethodV? && stored == v {
      assert v.inner < v;
    }
  }

  /**
   * The template guard of a StrictMock: a name it does not know cannot be
   * set, a callable template attribute takes only a callable value, and a
   * known name that was never set reads as UndefinedAttribute.
   */
  lemma DoubleGuard(h: Heap, o: ObjId, n: Name, v: Value)
    requires o in h.kinds && h.kinds[o].Double? && h.kinds[o].template.Some?
    ensures var t := h.kinds[o].template.value;
      (n !in t && n !in h.kinds[o].otherNames ==> SetAttr(h, o, n, v) == Err(NonExistentAttribute)) &&
      (n in t && Callable(t[n]) ==> (SetAttr(h, o, n, v).Err? <==> !Callable(v))) &&
      (!HasOwn(h, o, n) && (n in t || n in h.kinds[o].otherNames) ==> GetAttr(h, o, n) == Err(UndefinedAttribute))
  {
  }

  /** Reading back what `setattr` wrote, on any kind of object. */
  lemma SetThenGetAny(h: Heap, o: ObjId, n: Name, v: Value)
    requires KindsOk(h.kinds) && o in h.kinds && SetAttr(h, o, n, v).Ok?
    requires h.kinds[o].Class? ==> !(v.StaticMethodV? || v.ClassMethodV?)
    requires h.kinds[o].Double? ==> DoubleReadsBack(h.kinds[o], n, v)
    ensures GetAttr(SetAttr(h, o, n, v).value, o, n) == Ok(v)
  {
    if h.kinds[o].Instance? {
      SetThenGet(h, o, n, v);
    } else if h.kinds[o].Double? {
      DoubleSetThenGet(h, o, n, v);
    } else if h.kinds[o].Class? {
      var h' := SetAttr(h, o, n, v).value;
      assert h'.kinds[o].mro[0] == o;
    }
  }

  /** An instance whose class itself holds a property reads the property's value. */
  lemma ReadOwnClassProperty(h: Heap, inst: ObjId, attr: Name, g: Value)
    requires KindsOk(h.kinds) && IsInstanceObj(h, inst)
    requires HasOwn(h, h.kinds[inst].cls, attr) && h.dicts[h.kinds[inst].cls][attr] == PropertyV(g)
    ensures GetAttr(h, inst, attr) == Ok(g)
  {
    var cls := h.kinds[inst].cls;
    assert Mro(h, cls)[0] == cls;
    assert ClassLookup(h, Mro(h, cls), attr) == Some(PropertyV(g));
  }

  /** An instance without an override reads the function the proxy replaced, bound to itself. */
  lemma ProxyReadsOriginal(h: Heap, o: ObjId, name: Name, pid: nat, f: nat)
    requires IsInstanceObj(h, o) && ClassLookup(h, Mro(h, h.kinds[o].cls), name) == Some(ProxyV(pid))
    requires pid < |h.proxies| && o !in h.proxies[pid].instanceAttrMap && h.proxies[pid].original == FuncV(f)
    ensures GetAttr(h, o, name) == Ok(MethodV(f, o))
  {
    var cls := h.kinds[o].cls;
    assert GetAttr(h, o, name) == BindToInstance(h, ProxyV(pid), o, cls) == DunderGet(h, ProxyV(pid), o, cls);
    assert DunderGet(h, ProxyV(pid), o, cls) == ProxyGet(h, pid, o, cls);
    assert ProxyGet(h, pid, o, cls) == DunderGet(h, FuncV(f), o, cls);
  }

  /** With nothing replaced, an instance without an override reads the parents' function, bound to itself. */
  lemma ProxyReadsParent(h: Heap, o: ObjId, name: Name, pid: nat, f: nat)
    requires IsInstanceObj(h, o) && ClassLookup(h, Mro(h, h.kinds[o].cls), name) == Some(ProxyV(pid))
    requires pid < |h.proxies| && o !in h.proxies[pid].instanceAttrMap && h.proxies[pid].original == NoneV
    requires h.proxies[pid].attrName == name
    requires |Mro(h, h.kinds[o].cls)| > 0 && FallbackEntry(h, Mro(h, h.kinds[o].cls)[1..], name) == Some(FuncV(f))
    ensures GetAttr(h, o, name) == Ok(MethodV(f, o))
  {
    var cls := h.kinds[o].cls;
    assert GetAttr(h, o, name) == BindToInstance(h, ProxyV(pid), o, cls) == DunderGet(h, ProxyV(pid), o, cls);
    assert DunderGet(h, ProxyV(pid), o, cls) == ProxyGet(h, pid, o, cls);
    assert ProxyGet(h, pid, o, cls) == DunderGet(h, FuncV(f), o, cls);
  }
}
