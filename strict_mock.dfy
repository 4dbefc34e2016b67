/**
 * `StrictMock` (testslide/strict_mock.py): a double whose attributes live in
 * the dictionary of a class made for that one instance, guarded by a template
 * interface.
 *
 * The template class is described by what the guard asks of it: which names
 * `hasattr` finds and whether `getattr` gives something callable, the names of
 * its `__slots__`, and the names some `__init__` of its MRO stores on `self`
 * (a given set: the source finds them by scanning bytecode).  The values the
 * double stores are `Obj`: plain values plus the callables the double itself
 * makes (the context-manager lambdas, the `staticmethod` and signature-check
 * wrappers) and the bound methods a class attribute read can produce.
 */
module StrictMockModel {
  import opened Values

  /** What the guard learns about a template class. */
  datatype Template = Template(
    attrs: map<Name, bool>,   // hasattr(template, n), mapped to callable(getattr(template, n))
    slots: set<Name>,         // getattr(template, "__slots__", [])
    initStored: set<Name>)    // names stored on self by some __init__ of the template's MRO

  /**
   * The `template` argument: a class, or any other value (None by default).
   * A class is always `ClassArg`, carrying what the guard learns about it;
   * `OtherArg` never holds a `TypeV`.
   */
  datatype TemplateArg = ClassArg(t: Template) | OtherArg(v: Value)

  /** The two lambdas `__init__` installs for a context-manager template. */
  datatype LambdaBody =
    | ReturnsMock(m: nat)   // lambda: self
    | ReturnsNone           // lambda exc_type, exc_value, traceback: None

  datatype Obj =
    | Val(v: Value)
    | Lambda(body: LambdaBody)
      /** A `staticmethod` object. */
    | StaticM(inner: Obj)
      /** The `with_sig_check` closure `_add_signature_validation` returns. */
    | SigChecked(inner: Obj, attr: Name)
      /** A function read through an instance: a method bound to it. */
    | Bound(func: Obj, self: nat)
      /** A StrictMock instance. */
    | MockRef(m: nat)

  /**
   * `callable(o)`.  A StrictMock instance is taken as not callable: in Python
   * one is callable when `__call__` has been set on it (with a template that
   * defines it), which this model does not track.
   */
  predicate IsCallable(o: Obj)
  {
    match o
    case Val(v) => Callable(v)
    case MockRef(_) => false
    case _ => true
  }

  /** Plain Python functions: as class attributes they bind to the instance they are read through. */
  predicate IsFunction(o: Obj)
  {
    match o
    case Val(v) => v.FuncV?
    case Lambda(_) => true
    case SigChecked(_, _) => true
    case _ => false
  }

  /** What `o` calls in the end, once the wrappers the double adds are taken off. */
  function Unwrap(o: Obj): Obj
  {
    match o
    case StaticM(x) => Unwrap(x)
    case SigChecked(x, _) => Unwrap(x)
    case _ => o
  }

  /** The result of calling `o` with the arguments a `with` statement passes, when the model knows the code called. */
  function Invoke(o: Obj): Option<Obj>
  {
    match o
    case Lambda(ReturnsMock(m)) => Some(MockRef(m))
    case Lambda(ReturnsNone) => Some(Val(NoneV))
    case StaticM(x) => Invoke(x)
    case SigChecked(x, _) => Invoke(x)
    case _ => None
  }

  /**
   * Whether a value other than a template class has a `__name__`: functions,
   * bound methods and classes do, and `staticmethod`/`classmethod` objects
   * take their function's (Python 3.10 on); instances, plain values, mocks,
   * properties and proxies do not.
   */
  predicate HasDunderName(v: Value)
  {
    match v
    case FuncV(_) => true
    case MethodV(_, _) => true
    case TypeV(_) => true
    case StaticMethodV(x) => HasDunderName(x)
    case ClassMethodV(x) => HasDunderName(x)
    case _ => false
  }

  /**
   * The template checks of construction: `__new__` reads `template.__name__`
   * for any truthy template (AttributeError when there is none), then
   * `__init__` refuses a truthy template that is not a class (ValueError).
   * A falsy one means no template.
   */
  function CheckTemplate(arg: TemplateArg): (r: Result<Option<Template>, ExcKind>)
    requires arg.OtherArg? ==> !IsClass(arg.v)
    ensures r.Err? <==> arg.OtherArg? && Truthy(arg.v)
    ensures r == Err(AttributeError) <==> arg.OtherArg? && Truthy(arg.v) && !HasDunderName(arg.v)
    ensures r == Err(ValueError) <==> arg.OtherArg? && Truthy(arg.v) && HasDunderName(arg.v)
    ensures r.Ok? ==> (r.value.Some? <==> arg.ClassArg?)
    ensures arg.ClassArg? ==> r == Ok(Some(arg.t))
  {
    match arg
    case ClassArg(t) => Ok(Some(t))
    case OtherArg(v) =>
      if !Truthy(v) then Ok(None)
      else if !HasDunderName(v) then Err(AttributeError)
      else Err(ValueError)
  }

  /** `__template_has_attr(name)`. */
  predicate HasAttr(t: Template, runtimeAttrs: seq<Name>, name: Name)
  {
    name in t.attrs || name in runtimeAttrs || name in t.slots || name in t.initStored
  }

  /** The template has `name` and it is callable there. */
  predicate CallableOnTemplate(t: Template, name: Name)
  {
    name in t.attrs && t.attrs[name]
  }

  /**
   * `__setattr__(name, value)` as written: the value `setattr(type(self), ...)`
   * stores, or the exception raised.  With a template, a callable value is
   * wrapped only where the template's own attribute is callable.
   */
  function StoredValueAsWritten(t: Option<Template>, runtimeAttrs: seq<Name>, name: Name, value: Obj): (r: Result<Obj, ExcKind>)
    ensures r == Err(NonExistentAttribute) <==> t.Some? && !HasAttr(t.value, runtimeAttrs, name)
    ensures r == Err(NonCallableValue) <==>
      t.Some? && HasAttr(t.value, runtimeAttrs, name) && CallableOnTemplate(t.value, name) && !IsCallable(value)
    ensures r.Err? ==> r.error == NonExistentAttribute || r.error == NonCallableValue
    ensures r.Ok? ==> (IsCallable(r.value) <==> IsCallable(value))
    ensures r.Ok? ==> (IsFunction(r.value) <==> t.Some? && !CallableOnTemplate(t.value, name) && IsFunction(value))
  {
    if t.Some? then
      if !HasAttr(t.value, runtimeAttrs, name) then Err(NonExistentAttribute)
      else if CallableOnTemplate(t.value, name) then
        if !IsCallable(value) then Err(NonCallableValue) else Ok(StaticM(SigChecked(value, name)))
      else Ok(value)
    else if IsCallable(value) then Ok(StaticM(value))
    else Ok(value)
  }

  /**
   * `__setattr__(name, value)` with every callable that is not checked against
   * the template wrapped in `staticmethod`, as the branch without a template
   * does, so that reading it back gives the value itself.
   */
  function StoredValue(t: Option<Template>, runtimeAttrs: seq<Name>, name: Name, value: Obj): (r: Result<Obj, ExcKind>)
    ensures r == Err(NonExistentAttribute) <==> t.Some? && !HasAttr(t.value, runtimeAttrs, name)
    ensures r == Err(NonCallableValue) <==>
      t.Some? && HasAttr(t.value, runtimeAttrs, name) && CallableOnTemplate(t.value, name) && !IsCallable(value)
    ensures r.Err? ==> r.error == NonExistentAttribute || r.error == NonCallableValue
    ensures r.Ok? ==> !IsFunction(r.value) && (IsCallable(r.value) <==> IsCallable(value))
  {
    if t.Some? then
      if !HasAttr(t.value, runtimeAttrs, name) then Err(NonExistentAttribute)
      else if CallableOnTemplate(t.value, name) then
        if !IsCallable(value) then Err(NonCallableValue) else Ok(StaticM(SigChecked(value, name)))
      else if IsCallable(value) then Ok(StaticM(value))
      else Ok(value)
    else if IsCallable(value) then Ok(StaticM(value))
    else Ok(value)
  }

  /** What reading a class attribute through the instance `self` gives. */
  function Present(e: Obj, self: nat): Obj
  {
    if e.StaticM? then e.inner
    else if IsFunction(e) then Bound(e, self)
    else e
  }

  /** The entry of the first class dictionary holding `name`. */
  function Lookup(ds: seq<map<Name, Obj>>, name: Name): (r: Option<Obj>)
    ensures r.Some? <==> exists i :: 0 <= i < |ds| && name in ds[i]
    ensures r.Some? ==> exists i :: 0 <= i < |ds| && name in ds[i] && r.value == ds[i][name]
  {
    if ds == [] then None
    else if name in ds[0] then Some(ds[0][name])
    else
      assert forall i :: 1 <= i < |ds| ==> ds[i] == ds[1..][i - 1];
      Lookup(ds[1..], name)
  }

  /**
   * Reading `name` from a double of instance `self` whose class and its
   * bases hold `ds`: a stored value, else `__getattr__`'s two errors.
   */
  function ReadFrom(ds: seq<map<Name, Obj>>, t: Option<Template>, runtimeAttrs: seq<Name>, self: nat, name: Name): (r: Result<Obj, ExcKind>)
    ensures r.Ok? <==> exists i :: 0 <= i < |ds| && name in ds[i]
    ensures r == Err(UndefinedAttribute) <==>
      (forall i :: 0 <= i < |ds| ==> name !in ds[i]) && t.Some? && HasAttr(t.value, runtimeAttrs, name)
    ensures r == Err(AttributeError) <==>
      (forall i :: 0 <= i < |ds| ==> name !in ds[i]) && !(t.Some? && HasAttr(t.value, runtimeAttrs, name))
  {
    match Lookup(ds, name)
    case Some(e) => Ok(Present(e, self))
    case None =>
      if t.Some? && HasAttr(t.value, runtimeAttrs, name) then Err(UndefinedAttribute) else Err(AttributeError)
  }

  /**
   * What every entry of a double's own class satisfies, since each was
   * stored by `__setattr__`: the guard accepted its name, it is callable where
   * the template is, and it is not a bare function.
   */
  predicate Conforms(t: Option<Template>, runtimeAttrs: seq<Name>, d: map<Name, Obj>)
  {
    forall n :: n in d ==>
      (t.Some? ==> HasAttr(t.value, runtimeAttrs, n)) &&
      (t.Some? && CallableOnTemplate(t.value, n) ==> IsCallable(d[n])) &&
      !IsFunction(d[n])
  }

  /** The entries `__init__` stores: `__enter__` and `__exit__` for a context-manager template. */
  function InitialEntries(t: Option<Template>, runtimeAttrs: seq<Name>, defaultContextManager: bool, self: nat): (r: map<Name, Obj>)
    ensures Conforms(t, runtimeAttrs, r)
  {
    if t.Some? && defaultContextManager && "__enter__" in t.value.attrs && "__exit__" in t.value.attrs then
      map["__enter__" := StoredValue(t, runtimeAttrs, "__enter__", Lambda(ReturnsMock(self))).value,
          "__exit__" := StoredValue(t, runtimeAttrs, "__exit__", Lambda(ReturnsNone)).value]
    else map[]
  }

  /** The entries `__copy__` stores on the new double: each entry of the original, set again through `__setattr__`. */
  function CopiedEntries(t: Option<Template>, runtimeAttrs: seq<Name>, d: map<Name, Obj>): (r: map<Name, Obj>)
    requires Conforms(t, runtimeAttrs, d)
    ensures r.Keys == d.Keys
    ensures Conforms(t, runtimeAttrs, r)
  {
    CopiedPart(t, runtimeAttrs, d, d.Keys)
  }

  /** The entries of `CopiedEntries` for the names `keys` only. */
  function CopiedPart(t: Option<Template>, runtimeAttrs: seq<Name>, d: map<Name, Obj>, keys: set<Name>): (r: map<Name, Obj>)
    requires Conforms(t, runtimeAttrs, d) && keys <= d.Keys
    ensures r.Keys == keys
    ensures Conforms(t, runtimeAttrs, r)
  {
    map n | n in keys :: StoredValue(t, runtimeAttrs, n, d[n]).value
  }

  lemma CopiedPartStep(t: Option<Template>, runtimeAttrs: seq<Name>, d: map<Name, Obj>, start: map<Name, Obj>, keys: set<Name>, n: Name)
    requires Conforms(t, runtimeAttrs, d) && keys <= d.Keys && n in d
    ensures start + CopiedPart(t, runtimeAttrs, d, keys + {n}) ==
      (start + CopiedPart(t, runtimeAttrs, d, keys))[n := StoredValue(t, runtimeAttrs, n, d[n]).value]
  {
  }

  /** The per-instance class `__new__` makes; `dict` is its `__dict__` (less `__module__` and `__doc__`). */
  class MockClass {
    var dict: map<Name, Obj>

    constructor ()
      ensures dict == map[]
    {
      dict := map[];
    }
  }

  /** The dictionaries of `cs`, in order. */
  function DictsOf(cs: seq<MockClass>): (r: seq<map<Name, Obj>>)
    reads cs
    ensures |r| == |cs| && forall i :: 0 <= i < |cs| ==> r[i] == cs[i].dict
  {
    if cs == [] then [] else [cs[0].dict] + DictsOf(cs[1..])
  }

  class StrictMock {
    const oid: nat
    /** `self.__template`, None when falsy. */
    const template: Option<Template>
    /** `runtime_attrs or []`. */
    const runtimeAttrs: seq<Name>
    /** `type(self)` and the per-instance classes it inherits from, nearest first. */
    const classes: seq<MockClass>

    ghost predicate Valid()
      reads classes
    {
      |classes| > 0 && Conforms(template, runtimeAttrs, classes[0].dict)
    }

    /** `__new__` followed by `__init__` with a template already checked; `bases` are the classes `type(self)` derives from. */
    constructor Init(oid: nat, template: Option<Template>, runtimeAttrs: seq<Name>, defaultContextManager: bool, bases: seq<MockClass>)
      ensures this.oid == oid && this.template == template && this.runtimeAttrs == runtimeAttrs
      ensures |classes| == |bases| + 1 && fresh(classes[0]) && classes[1..] == bases
      ensures classes[0].dict == InitialEntries(template, runtimeAttrs, defaultContextManager, oid)
      ensures Valid()
    {
      var own := new MockClass();
      own.dict := InitialEntries(template, runtimeAttrs, defaultContextManager, oid);
      this.oid := oid;
      this.template := template;
      this.runtimeAttrs := runtimeAttrs;
      this.classes := [own] + bases;
    }

    /** `StrictMock(template, runtime_attrs, default_context_manager=...)`. */
    static method Create(oid: nat, arg: TemplateArg, runtimeAttrs: seq<Name>, defaultContextManager: bool)
      returns (r: Result<StrictMock, ExcKind>)
      requires arg.OtherArg? ==> !IsClass(arg.v)
      ensures r.Err? <==> arg.OtherArg? && Truthy(arg.v)
      ensures r == Err(AttributeError) <==> arg.OtherArg? && Truthy(arg.v) && !HasDunderName(arg.v)
      ensures r == Err(ValueError) <==> arg.OtherArg? && Truthy(arg.v) && HasDunderName(arg.v)
      ensures r.Ok? ==> fresh(r.value) && |r.value.classes| == 1 && fresh(r.value.classes[0]) && r.value.Valid()
      ensures r.Ok? ==> r.value.template == CheckTemplate(arg).value && r.value.runtimeAttrs == runtimeAttrs
      ensures r.Ok? ==> r.value.classes[0].dict == InitialEntries(r.value.template, runtimeAttrs, defaultContextManager, oid)
    {
      var checked := CheckTemplate(arg);
      if checked.Err? {
        r := Err(checked.error);
      } else {
        var m := new StrictMock.Init(oid, checked.value, runtimeAttrs, defaultContextManager, []);
        r := Ok(m);
      }
    }

    /** `getattr(self, name)`. */
    function Read(name: Name): Result<Obj, ExcKind>
      reads classes
    {
      ReadFrom(DictsOf(classes), template, runtimeAttrs, oid, name)
    }

    /** `setattr(self, name, value)`: only this double's own class changes. */
    method SetAttribute(name: Name, value: Obj) returns (err: Option<ExcKind>)
      requires Valid()
      modifies classes[0]
      ensures Valid()
      ensures StoredValue(template, runtimeAttrs, name, value).Err? ==>
        err == Some(StoredValue(template, runtimeAttrs, name, value).error) && classes[0].dict == old(classes[0].dict)
      ensures StoredValue(template, runtimeAttrs, name, value).Ok? ==>
        err == None && classes[0].dict == old(classes[0].dict)[name := StoredValue(template, runtimeAttrs, name, value).value]
    {
      match StoredValue(template, runtimeAttrs, name, value)
      case Err(e) =>
        err := Some(e);
      case Ok(s) =>
        classes[0].dict := classes[0].dict[name := s];
        err := None;
    }

    /** `delattr(self, name)`: drops the entry of the double's own class, if any. */
    method DeleteAttribute(name: Name)
      requires Valid()
      modifies classes[0]
      ensures Valid()
      ensures classes[0].dict == old(classes[0].dict) - {name}
    {
      if name in classes[0].dict {
        classes[0].dict := classes[0].dict - {name};
      }
    }

    /**
     * The loop of `__copy__`: every entry of this double's class is set on
     * `c` through `__setattr__`.  (Its guard `name not in self_copy.__dict__`
     * looks at the instance dictionary, which never holds an entry name.)
     */
    method CopyOnto(c: StrictMock)
      requires Valid() && c.Valid()
      requires c.template == template && c.runtimeAttrs == runtimeAttrs
      requires c.classes[0] !in classes
      modifies c.classes[0]
      ensures c.Valid()
      ensures c.classes[0].dict == old(c.classes[0].dict) + CopiedEntries(template, runtimeAttrs, classes[0].dict)
    {
      var d := classes[0].dict;
      ghost var start := c.classes[0].dict;
      var todo := d.Keys;
      while todo != {}
        invariant todo <= d.Keys
        invariant c.Valid()
        invariant c.classes[0].dict == start + CopiedPart(template, runtimeAttrs, d, d.Keys - todo)
        decreases |todo|
      {
        var n :| n in todo;
        assert StoredValue(template, runtimeAttrs, n, d[n]).Ok?;
        var err := c.SetAttribute(n, d[n]);
        CopiedPartStep(template, runtimeAttrs, d, start, d.Keys - todo, n);
        assert d.Keys - (todo - {n}) == (d.Keys - todo) + {n};
        todo := todo - {n};
      }
      assert d.Keys - todo == d.Keys;
    }

    /** `copy.copy(self)` as written: `type(self)(...)` makes the copy's class a subclass of this double's class. */
    method Copy(newOid: nat) returns (c: StrictMock)
      requires Valid()
      ensures fresh(c) && |c.classes| == |classes| + 1 && fresh(c.classes[0]) && c.classes[1..] == classes
      ensures c.oid == newOid && c.template == template && c.runtimeAttrs == runtimeAttrs
      ensures c.classes[0].dict == InitialEntries(template, runtimeAttrs, true, newOid) + CopiedEntries(template, runtimeAttrs, classes[0].dict)
      ensures c.Valid()
    {
      c := new StrictMock.Init(newOid, template, runtimeAttrs, true, classes);
      CopyOnto(c);
    }

    /** `copy.copy(self)` building the copy as a fresh `StrictMock(...)`, so that it shares no class with this double. */
    method CopyDetached(newOid: nat) returns (c: StrictMock)
      requires Valid()
      ensures fresh(c) && |c.classes| == 1 && fresh(c.classes[0])
      ensures c.oid == newOid && c.template == template && c.runtimeAttrs == runtimeAttrs
      ensures c.classes[0].dict == InitialEntries(template, runtimeAttrs, true, newOid) + CopiedEntries(template, runtimeAttrs, classes[0].dict)
      ensures c.Valid()
    {
      c := new StrictMock.Init(newOid, template, runtimeAttrs, true, []);
      CopyOnto(c);
    }
  }

  /** Without a template every name may be set, and the value is kept as it is or wrapped in `staticmethod`. */
  lemma NoTemplateAcceptsAll(runtimeAttrs: seq<Name>, name: Name, value: Obj)
    ensures StoredValue(None, runtimeAttrs, name, value).Ok?
    ensures Unwrap(StoredValue(None, runtimeAttrs, name, value).value) == Unwrap(value)
  {
  }

  /**
   * Setting then reading gives back the value, through the signature check
   * where the template's attribute is callable.
   */
  lemma ReadAfterSet(t: Option<Template>, runtimeAttrs: seq<Name>, d: map<Name, Obj>, bases: seq<map<Name, Obj>>,
                     self: nat, name: Name, value: Obj)
    requires StoredValue(t, runtimeAttrs, name, value).Ok?
    ensures ReadFrom([d[name := StoredValue(t, runtimeAttrs, name, value).value]] + bases, t, runtimeAttrs, self, name) ==
      Ok(if t.Some? && CallableOnTemplate(t.value, name) then SigChecked(value, name) else value)
  {
    var ds := [d[name := StoredValue(t, runtimeAttrs, name, value).value]] + bases;
    assert name in ds[0];
  }

  /** Where the template does not call for a callable, both writes store the same thing unless the value is callable. */
  lemma StoredValueAgrees(t: Option<Template>, runtimeAttrs: seq<Name>, name: Name, value: Obj)
    requires t.None? || !IsCallable(value) || CallableOnTemplate(t.value, name) || !HasAttr(t.value, runtimeAttrs, name)
    ensures StoredValueAsWritten(t, runtimeAttrs, name, value) == StoredValue(t, runtimeAttrs, name, value)
  {
  }

  /**
   * As written, a function assigned to a runtime attribute of a double with
   * a template is stored bare on the class, so reading it gives a method
   * bound to the double, not the function.
   */
  lemma RuntimeCallableBoundAsWritten(f: nat, self: nat)
    ensures var t := Some(Template(map[], {}, {}));
      var s := StoredValueAsWritten(t, ["cb"], "cb", Val(FuncV(f)));
      s.Ok? && ReadFrom([map["cb" := s.value]], t, ["cb"], self, "cb") == Ok(Bound(Val(FuncV(f)), self))
  {
    var t := Some(Template(map[], {}, {}));
    var ds := [map["cb" := Val(FuncV(f))]];
    assert "cb" in ds[0];
  }

  /** Deleting a name from a double with no inherited classes makes reads fail again, with the error of a never-set name. */
  lemma ReadAfterDelete(t: Option<Template>, runtimeAttrs: seq<Name>, d: map<Name, Obj>, self: nat, name: Name)
    ensures ReadFrom([d - {name}], t, runtimeAttrs, self, name) ==
      (if t.Some? && HasAttr(t.value, runtimeAttrs, name) then Err(UndefinedAttribute) else Err(AttributeError))
  {
  }

  /** A name the first dictionary holds reads its entry there. */
  lemma ReadFirst(ds: seq<map<Name, Obj>>, t: Option<Template>, runtimeAttrs: seq<Name>, self: nat, name: Name)
    requires |ds| > 0 && name in ds[0]
    ensures ReadFrom(ds, t, runtimeAttrs, self, name) == Ok(Present(ds[0][name], self))
  {
  }

  /** A name the first dictionary lacks and the second holds reads its entry in the second. */
  lemma ReadSecond(ds: seq<map<Name, Obj>>, t: Option<Template>, runtimeAttrs: seq<Name>, self: nat, name: Name)
    requires |ds| > 1 && name !in ds[0] && name in ds[1]
    ensures ReadFrom(ds, t, runtimeAttrs, self, name) == Ok(Present(ds[1][name], self))
  {
    assert ds[1..][0] == ds[1];
    assert Lookup(ds, name) == Lookup(ds[1..], name);
  }

  /** With a context-manager template, `__enter__` gives the double itself and `__exit__` gives None. */
  lemma EnterYieldsMock(t: Template, runtimeAttrs: seq<Name>, self: nat)
    requires "__enter__" in t.attrs && "__exit__" in t.attrs
    ensures var d := InitialEntries(Some(t), runtimeAttrs, true, self);
      var enter := ReadFrom([d], Some(t), runtimeAttrs, self, "__enter__");
      var exit := ReadFrom([d], Some(t), runtimeAttrs, self, "__exit__");
      enter.Ok? && Invoke(enter.value) == Some(MockRef(self)) &&
      exit.Ok? && Invoke(exit.value) == Some(Val(NoneV))
  {
    var d := InitialEntries(Some(t), runtimeAttrs, true, self);
    var e := StoredValue(Some(t), runtimeAttrs, "__enter__", Lambda(ReturnsMock(self)));
    var x := StoredValue(Some(t), runtimeAttrs, "__exit__", Lambda(ReturnsNone));
    assert d == map["__enter__" := e.value, "__exit__" := x.value];
    ReadFirst([d], Some(t), runtimeAttrs, self, "__enter__");
    ReadFirst([d], Some(t), runtimeAttrs, self, "__exit__");
    assert e.value.StaticM? && Invoke(e.value.inner) == Some(MockRef(self));
    assert x.value.StaticM? && Invoke(x.value.inner) == Some(Val(NoneV));
  }

  /** A copied entry reads, on the copy, as something that calls what the original's entry calls. */
  lemma CopiedEntryReadsAlike(t: Option<Template>, runtimeAttrs: seq<Name>, d: map<Name, Obj>, init: map<Name, Obj>,
                              bases: seq<map<Name, Obj>>, copyBases: seq<map<Name, Obj>>, self: nat, copySelf: nat, name: Name)
    requires Conforms(t, runtimeAttrs, d) && name in d
    ensures var onCopy := ReadFrom([init + CopiedEntries(t, runtimeAttrs, d)] + copyBases, t, runtimeAttrs, copySelf, name);
      var onOriginal := ReadFrom([d] + bases, t, runtimeAttrs, self, name);
      onCopy.Ok? && onOriginal.Ok? && Unwrap(onCopy.value) == Unwrap(onOriginal.value)
  {
    var c := init + CopiedEntries(t, runtimeAttrs, d);
    assert name in ([c] + copyBases)[0];
    assert name in ([d] + bases)[0];
    var e := d[name];
    assert c[name] == StoredValue(t, runtimeAttrs, name, e).value;
    assert !IsFunction(e);
  }

  /** A copy keeps the original's `__enter__`, which gives the original double, not the copy. */
  lemma CopiedEnterYieldsOriginal(t: Template, runtimeAttrs: seq<Name>, self: nat, copySelf: nat)
    requires "__enter__" in t.attrs && "__exit__" in t.attrs
    ensures var d := InitialEntries(Some(t), runtimeAttrs, true, self);
      var c := InitialEntries(Some(t), runtimeAttrs, true, copySelf) + CopiedEntries(Some(t), runtimeAttrs, d);
      var enter := ReadFrom([c], Some(t), runtimeAttrs, copySelf, "__enter__");
      enter.Ok? && Invoke(enter.value) == Some(MockRef(self))
  {
    var d := InitialEntries(Some(t), runtimeAttrs, true, self);
    var c := InitialEntries(Some(t), runtimeAttrs, true, copySelf) + CopiedEntries(Some(t), runtimeAttrs, d);
    var e := StoredValue(Some(t), runtimeAttrs, "__enter__", Lambda(ReturnsMock(self))).value;
    assert d["__enter__"] == e;
    assert e.StaticM? && Invoke(e.inner) == Some(MockRef(self));
    var ce := StoredValue(Some(t), runtimeAttrs, "__enter__", e).value;
    assert c["__enter__"] == ce;
    assert ce.StaticM? && Invoke(ce.inner) == Invoke(e.inner);
    ReadFirst([c], Some(t), runtimeAttrs, copySelf, "__enter__");
  }

  /**
   * As written, the copy's class derives from the original's: a name deleted
   * from the copy still reads the original's entry.
   */
  lemma CopyDeleteStillReadsOriginal(t: Option<Template>, runtimeAttrs: seq<Name>, dc: map<Name, Obj>, d: map<Name, Obj>,
                                     bases: seq<map<Name, Obj>>, copySelf: nat, name: Name)
    requires name in d
    ensures ReadFrom([dc - {name}, d] + bases, t, runtimeAttrs, copySelf, name) == Ok(Present(d[name], copySelf))
  {
    ReadSecond([dc - {name}, d] + bases, t, runtimeAttrs, copySelf, name);
  }

  /**
   * As written, a name the copy does not hold that the original sets after
   * the copy was made becomes readable on the copy.
   */
  lemma CopySeesLaterWrites(t: Option<Template>, runtimeAttrs: seq<Name>, dc: map<Name, Obj>, d: map<Name, Obj>,
                            bases: seq<map<Name, Obj>>, copySelf: nat, name: Name, s: Obj)
    requires name !in dc
    ensures ReadFrom([dc, d[name := s]] + bases, t, runtimeAttrs, copySelf, name) == Ok(Present(s, copySelf))
  {
    ReadSecond([dc, d[name := s]] + bases, t, runtimeAttrs, copySelf, name);
  }
}
