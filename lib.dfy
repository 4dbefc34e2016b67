/**
 * Validation helpers shared by the mocking functions (testslide/lib.py):
 * the private-name rule, whether a template's callable takes an implicit
 * first argument, and the per-argument type check with all failures
 * collected.  The type test itself is a given oracle.
 */
module Lib {
  import opened Values
  import opened ObjectModel

  // -----------------------------------------------------------------------
  // Private names

  /** `_bail_if_private(candidate, allow_private)`: ValueError for a private, non-dunder name. */
  function BailIfPrivate(candidate: string, allowPrivate: bool): (r: Option<ExcKind>)
    ensures r.Some? ==> r.value == ValueError
    ensures r.Some? <==>
      (|candidate| > 0 && candidate[0] == '_' && !allowPrivate &&
       !(|candidate| >= 2 && candidate[1] == '_' && candidate[|candidate| - 1] == '_' && candidate[|candidate| - 2] == '_'))
  {
    if IsPrefix("_", candidate) && !allowPrivate && !(IsPrefix("__", candidate) && IsSuffix("__", candidate))
    then Some(ValueError)
    else None
  }

  // -----------------------------------------------------------------------
  // Implicit first argument

  /** The MRO `_skip_first_arg` walks: none for a module, the class's own, or the class of an instance. */
  function TemplateMro(h: Heap, template: ObjId): seq<ObjId>
  {
    if template !in h.kinds then []
    else match h.kinds[template]
      case Class(mro) => mro
      case Instance(cls) => Mro(h, cls)
      case _ => []
  }

  /** The early-return search: the first class defining the name decides. */
  function FirstDefinitionTakesSelf(h: Heap, mro: seq<ObjId>, name: Name): (r: bool)
    ensures r <==> ClassLookup(h, mro, name).Some? && !ClassLookup(h, mro, name).value.StaticMethodV?
  {
    if mro == [] then false
    else if !HasOwn(h, mro[0], name) then FirstDefinitionTakesSelf(h, mro[1..], name)
    else
      var attr := h.dicts[mro[0]][name];
      if attr.ClassMethodV? then true
      else if attr.StaticMethodV? then false
      else true
  }

  /**
   * `_skip_first_arg(template, attr_name)`: false for modules; otherwise
   * true iff the first class of the MRO that defines the name does not hold
   * a staticmethod there.
   */
  function SkipFirstArg(h: Heap, template: ObjId, name: Name): (r: bool)
    ensures template in h.kinds && h.kinds[template].Module? ==> !r
    ensures r <==> ClassLookup(h, TemplateMro(h, template), name).Some? &&
                   !ClassLookup(h, TemplateMro(h, template), name).value.StaticMethodV?
  {
    if template in h.kinds && h.kinds[template].Module? then false
    else FirstDefinitionTakesSelf(h, TemplateMro(h, template), name)
  }

  // -----------------------------------------------------------------------
  // Argument type validation

  /** A parameter annotation, kept as the text `str()` gives for it. */
  datatype Annotation = Annotation(text: string)

  /** What `inspect.getfullargspec` reports: named parameters, `*args`, annotations. */
  datatype ArgSpec = ArgSpec(params: seq<Name>, varargs: bool, annotations: map<Name, Annotation>)

  /** A TypeVar prints with a `~`; such annotations are not checked. */
  predicate IsTypeVar(a: Annotation)
  {
    IsSubstring("~", a.text)
  }

  /**
   * The check of one argument against its parameter: skipped when the
   * parameter has no annotation or a TypeVar annotation, otherwise the
   * oracle `typeOk` (standing for typeguard) decides.
   */
  predicate ArgumentFails(spec: ArgSpec, name: Name, v: Value, typeOk: (Annotation, Value) -> bool)
  {
    name in spec.annotations && !IsTypeVar(spec.annotations[name]) && !typeOk(spec.annotations[name], v)
  }

  datatype ArgCheck =
    | Passed
      /** TypeError: a positional argument beyond the parameters with no `*args`. */
    | ExtraArgument(index: nat)
      /** One TypeCheckError naming every failing argument, in the order checked. */
    | TypeErrors(names: seq<Name>)

  /** Failing positional arguments among `args[..n]` (all within the parameters). */
  function PositionalFailures(spec: ArgSpec, offset: nat, args: seq<Value>, n: nat, typeOk: (Annotation, Value) -> bool): (r: seq<Name>)
    requires n <= |args| && n + offset <= |spec.params|
    ensures forall x :: x in r <==>
      exists i :: 0 <= i < n && spec.params[i + offset] == x && ArgumentFails(spec, x, args[i], typeOk)
  {
    if n == 0 then []
    else
      var before := PositionalFailures(spec, offset, args, n - 1, typeOk);
      var name := spec.params[n - 1 + offset];
      if ArgumentFails(spec, name, args[n - 1], typeOk) then before + [name] else before
  }

  /** Failing keyword arguments among `kwargs[..n]`. */
  function KeywordFailures(spec: ArgSpec, kwargs: seq<(Name, Value)>, n: nat, typeOk: (Annotation, Value) -> bool): (r: seq<Name>)
    requires n <= |kwargs|
    ensures forall x :: x in r <==>
      exists i :: 0 <= i < n && kwargs[i].0 == x && ArgumentFails(spec, x, kwargs[i].1, typeOk)
  {
    if n == 0 then []
    else
      var before := KeywordFailures(spec, kwargs, n - 1, typeOk);
      if ArgumentFails(spec, kwargs[n - 1].0, kwargs[n - 1].1, typeOk) then before + [kwargs[n - 1].0] else before
  }

  /** How many positional arguments get checked: none without named parameters, else those that have one. */
  function CheckedCount(spec: ArgSpec, offset: nat, args: seq<Value>): (n: nat)
    ensures n <= |args| && (n > 0 ==> n + offset <= |spec.params|)
  {
    if |spec.params| == 0 || offset >= |spec.params| then 0
    else if |args| + offset <= |spec.params| then |args|
    else |spec.params| - offset
  }

  /** The outcome `_validate_callable_arg_types` must produce. */
  function ArgTypesOutcome(skipFirstArg: bool, spec: ArgSpec, args: seq<Value>, kwargs: seq<(Name, Value)>,
                           typeOk: (Annotation, Value) -> bool): ArgCheck
  {
    var offset := if skipFirstArg then 1 else 0;
    if |spec.params| > 0 && !spec.varargs && |args| + offset > |spec.params| then
      ExtraArgument(if |spec.params| >= offset then |spec.params| - offset else 0)
    else
      var n := CheckedCount(spec, offset, args);
      var errors := (if n > 0 then PositionalFailures(spec, offset, args, n, typeOk) else []) +
                    KeywordFailures(spec, kwargs, |kwargs|, typeOk);
      if |errors| > 0 then TypeErrors(errors) else Passed
  }

  /**
   * `_validate_callable_arg_types`: positional argument `i` is checked
   * against parameter `i + offset`; keyword arguments against their own
   * name; every failure is collected before one error is raised.
   */
  method ValidateCallableArgTypes(skipFirstArg: bool, spec: ArgSpec, args: seq<Value>, kwargs: seq<(Name, Value)>,
                                  typeOk: (Annotation, Value) -> bool) returns (r: ArgCheck)
    ensures r == ArgTypesOutcome(skipFirstArg, spec, args, kwargs, typeOk)
  {
    var offset: nat := if skipFirstArg then 1 else 0;
    var typeErrors: seq<Name> := [];
    var idx := 0;
    while idx < |args|
      invariant 0 <= idx <= |args|
      invariant !(|spec.params| > 0 && !spec.varargs && |args| + offset > |spec.params|) || idx + offset <= |spec.params|
      invariant |spec.params| == 0 ==> typeErrors == []
      invariant |spec.params| > 0 && offset <= |spec.params| ==>
        var m := if idx + offset <= |spec.params| then idx else |spec.params| - offset;
        typeErrors == PositionalFailures(spec, offset, args, m, typeOk)
    {
      if |spec.params| > 0 {
        if idx + offset >= |spec.params| {
          if spec.varargs {
            idx := idx + 1;
            continue;
          }
          return ExtraArgument(idx);
        }
        var argname := spec.params[idx + offset];
        if argname in spec.annotations && !IsTypeVar(spec.annotations[argname]) && !typeOk(spec.annotations[argname], args[idx]) {
          typeErrors := typeErrors + [argname];
        }
      }
      idx := idx + 1;
    }
    var positional := typeErrors;
    var k := 0;
    while k < |kwargs|
      invariant 0 <= k <= |kwargs|
      invariant typeErrors == positional + KeywordFailures(spec, kwargs, k, typeOk)
    {
      var (argname, value) := kwargs[k];
      if ArgumentFails(spec, argname, value, typeOk) {
        typeErrors := typeErrors + [argname];
      }
      k := k + 1;
    }
    if |typeErrors| > 0 {
      r := TypeErrors(typeErrors);
    } else {
      r := Passed;
    }
  }

  /** Every reported name is an annotated, non-TypeVar parameter that the oracle rejected for some argument. */
  lemma ReportedNamesAreAnnotated(skipFirstArg: bool, spec: ArgSpec, args: seq<Value>, kwargs: seq<(Name, Value)>,
                                  typeOk: (Annotation, Value) -> bool, x: Name)
    requires ArgTypesOutcome(skipFirstArg, spec, args, kwargs, typeOk).TypeErrors?
    requires x in ArgTypesOutcome(skipFirstArg, spec, args, kwargs, typeOk).names
    ensures x in spec.annotations && !IsTypeVar(spec.annotations[x])
  {
  }

  /** A failing keyword argument is always reported (unless a positional argument was extra). */
  lemma FailingKeywordReported(skipFirstArg: bool, spec: ArgSpec, args: seq<Value>, kwargs: seq<(Name, Value)>,
                               typeOk: (Annotation, Value) -> bool, i: nat)
    requires i < |kwargs| && ArgumentFails(spec, kwargs[i].0, kwargs[i].1, typeOk)
    ensures var r := ArgTypesOutcome(skipFirstArg, spec, args, kwargs, typeOk);
      r.ExtraArgument? || (r.TypeErrors? && kwargs[i].0 in r.names)
  {
    var kw := KeywordFailures(spec, kwargs, |kwargs|, typeOk);
    assert kwargs[i].0 in kw;
  }

  // -----------------------------------------------------------------------
  // The validating wrapper

  /** What `_validate_callable_signature` returned: could not inspect, bound fine, or a TypeError. */
  datatype SignatureOutcome = NotInspectable | Bound | SignatureMismatch

  /** The value `_wrap_signature_and_type_validation` installs. */
  datatype Wrapped = Unwrapped | WithValidation(skipFirstArg: bool)

  /**
   * `_wrap_signature_and_type_validation`: a mock template without a spec,
   * or a template without the attribute (a runtime attribute), leaves the
   * value as it is.
   */
  function WrapSignatureAndTypeValidation(h: Heap, templateIsMock: bool, mockTemplate: Option<ObjId>, template: ObjId, attrName: Name): (r: Wrapped)
    ensures (templateIsMock && mockTemplate.None?) ==> r == Unwrapped
    ensures !templateIsMock ==> (r.WithValidation? <==> GetAttr(h, template, attrName).Ok?)
    ensures r.WithValidation? ==> r.skipFirstArg == SkipFirstArg(h, if templateIsMock then mockTemplate.value else template, attrName)
  {
    if templateIsMock && mockTemplate.None? then Unwrapped
    else
      var t := if templateIsMock then mockTemplate.value else template;
      if GetAttr(h, t, attrName).Err? then Unwrapped
      else WithValidation(SkipFirstArg(h, t, attrName))
  }

  /** One call through the wrapper: what is checked, in order, before the value is called. */
  datatype WrapperStep = CheckSignature | CheckTypes | CallValue

  /** The wrapper checks types only after the signature bound, and only with type validation on. */
  function WrapperSteps(sig: SignatureOutcome, typeValidation: bool, types: ArgCheck): (r: seq<WrapperStep>)
    ensures CheckTypes in r <==> sig == Bound && typeValidation
    ensures CallValue in r <==> sig != SignatureMismatch && !(sig == Bound && typeValidation && !types.Passed?)
  {
    if sig == SignatureMismatch then [CheckSignature]
    else if sig == Bound && typeValidation then
      if types.Passed? then [CheckSignature, CheckTypes, CallValue] else [CheckSignature, CheckTypes]
    else [CheckSignature, CallValue]
  }
}
