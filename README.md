# TestSlide, modelled in Dafny

This project models the core of TestSlide, a Python test framework. It covers:

- the argument **matchers** (`testslide/core/matchers.py` and the older `testslide/matchers.py`), and how they combine with `&`, `|`, `^` and `~`;
- **mock_callable**: runners that accept calls by their arguments, and the order in which they are picked, run and checked;
- the **patching layer** (`patch.py`, `patch_attribute.py`, `mock_constructor.py`). It installs values or descriptor proxies on modules, classes and instances and registers unpatchers that restore them;
- **StrictMock**: its per-instance subclass, its template checks, and its attribute reads, writes, deletes and copies;
- the signature and type-validation plumbing of `testslide/lib.py` (private-name bail-out, the "first argument is self" rule, the argument type check);
- the **BDD context tree** (`testslide/bdd/lib.py`): contexts, examples, inherited hooks and attributes, aggregated exceptions and write-once context data;
- **example execution** (`testslide/executor/lib.py`): around hooks nesting, before hooks, the example itself, after hooks in reverse, and the unpatching in `finally`;
- the two **runners** (`testslide/executor/runner.py` and the legacy `testslide/runner.py`): filtering, focus fallback, fail-fast and result tallies.

Python objects live in an explicit heap (`ObjectModel.Heap`). It holds attribute dictionaries, classes with their MRO, functions, properties, static and class methods, and the descriptor proxies the patchers install. Attribute lookup follows Python's data-descriptor, instance-dict, class-lookup and binding order. State that the source mutates in place is a class with `modifies` clauses:

- `ObjectModel.ObjectSpace`, the heap;
- `MockCallable.CallableMock`, `MockCallable.Registry` and `MockCallable.MockCallableDSL`;
- `PatchAttribute.AttributePatcher`;
- `MockConstructor.ConstructorMocks`;
- `StrictMockModel.StrictMock` and `StrictMockModel.MockClass`;
- `Contexts.ContextTree`, `Contexts.AggregatedExceptions` and `Contexts.ContextData`;
- `ExampleExecution.ExampleRunner`;
- `LegacyRunner.Formatter`.

Each of these methods is proved against a pure specification function, and the properties are proved about those functions. Comparison outcomes are three-valued: `Answer(b)` or `Raises(kind)`, so an exception raised inside `__eq__` is modelled, not ignored.

Source paths below are relative to the repository root.

## Model

| member | source | states |
|---|---|---|
| Matchers.Combine | testslide/core/matchers.py:35-104 | `&`, `\|`, `^` on a chained left operand give AlreadyChainedException, on a plain left value another error, otherwise a chained matcher. The result raises exactly when the left side raises, or when the left does not short-circuit and the right raises. On answers it is and, or, equivalence. |
| Matchers.Invert | testslide/core/matchers.py:84-92 | `~` gives AlreadyChainedException iff the operand is chained; a matcher's inversion negates its answer; on an int it is Python's bitwise `-n-1`. |
| Matchers.ChainOnlyOnce | testslide/core/matchers.py:16-51 | A combination refuses every further `&`, `\|`, `^`, `~` but can still be the right operand of a fresh matcher. |
| Matchers.XorIsEquivalence | testslide/core/matchers.py:70-81 | `_XorMatcher` is logical equivalence of the two answers (not exclusive or), raising when either side raises. |
| Matchers.NewAnyInt | testslide/core/matchers.py:191-193 | AnyInt matches exactly the ints (bools included). |
| Matchers.NewNotThisInt | testslide/core/matchers.py:196-202 | Refuses a non-int with ValueError; otherwise matches exactly the ints different from the argument. |
| Matchers.NewIntBetween | testslide/core/matchers.py:205-211 | Refuses non-int bounds with ValueError; otherwise matches exactly the ints within both bounds inclusive. |
| Matchers.NewIntGreaterThan | testslide/core/matchers.py:214-220 | ValueError on a non-int bound; matches exactly the ints strictly above it. |
| Matchers.NewIntGreaterOrEquals | testslide/core/matchers.py:223-229 | ValueError on a non-int bound; matches exactly the ints at or above it. |
| Matchers.NewIntLessThan | testslide/core/matchers.py:232-238 | ValueError on a non-int bound; matches exactly the ints strictly below it. |
| Matchers.NewIntLessOrEquals | testslide/core/matchers.py:241-247 | ValueError on a non-int bound; matches exactly the ints at or below it. |
| Matchers.NewAnyInstanceOf | testslide/core/matchers.py:574-585 | ValueError unless the argument is a class; otherwise matches exactly the instances of that class. |
| Matchers.NewStrMatcher | testslide/core/matchers.py:341-375 | StrContaining/StrStartingWith/StrEndingWith refuse a non-str needle with ValueError; otherwise match exactly the strs containing, starting with, ending with it. |
| Matchers.NewListContainingAll | testslide/core/matchers.py:401-419 | ValueError unless the argument is a list; otherwise matches exactly the lists that contain every element of it. |
| Matchers.ListContainingAllMeaning | testslide/core/matchers.py:401-419 | The same meaning for any list of elements, stated on the pattern directly. |
| Matchers.NewDictContainingKeys | testslide/core/matchers.py:449-465 | ValueError unless the argument is a list; false off a dict; on a dict true iff every expected (hashable) key is present, keys being looked up as Python does, so `True` finds the key `1`. |
| Matchers.NewDictSupersetOf | testslide/core/matchers.py:468-487 | ValueError unless the argument is a dict; otherwise matches exactly the dicts holding every key of it (looked up as Python does, `True` as `1`) with an equal value. |
| Matchers.DictSupersetOfMeaning | testslide/core/matchers.py:468-487 | The same meaning, stated on the pattern for any well-formed dict. |
| Matchers.SupersetOfAll | testslide/core/matchers.py:476-487 | The key-by-key loop with its caught KeyError answers "every key present, looked up as Python does, with an equal value". |
| Matchers.SupersetOfFrame | testslide/core/matchers.py:476-487 | The comparison reads the subset only at its own keys. |
| Matchers.SupersetOfSafe | testslide/core/matchers.py:476-487 | With hashable keys the superset comparison never raises. |
| Matchers.NewAnyContainingAll | testslide/core/matchers.py:505-518 | TypeError on a non-iterable argument; otherwise `all(x in other ...)` over its elements; on lists, "contains every element". |
| Matchers.NewIterableWithElements | testslide/core/matchers.py:530-543 | TypeError on a non-iterable argument; raises TypeError on a non-iterable operand; otherwise true iff both element lists have the same length and are elementwise equal. |
| Matchers.AllInList | testslide/core/matchers.py:505-518 | `all(x in list ...)` is "every element is in the list". |
| Matchers.AllInDict | testslide/core/matchers.py:505-518 | `all(k in dict ...)` over hashable keys is "every key is present", keys being looked up as Python does. |
| Values.KeyOfIsEquality | testslide/core/matchers.py:449-465 | Two hashable keys are filed under the same dict key iff they are `==`, so `True` and `1` (and `False` and `0`) are one key. |
| Matchers.DictLookupByEquality | testslide/core/matchers.py:449-465 | `k in d` on a well-formed dict holds iff some key of the dict is `==` to `k`. |
| Matchers.DictContainingKeysByEquality | testslide/core/matchers.py:449-465 | DictContainingKeys holds on a well-formed dict iff each expected key is `==` to some key of the dict. |
| Matchers.BoolKeyIsIntKey | testslide/core/matchers.py:449-487 | `DictContainingKeys([True])` matches `{1: "a"}`, `DictSupersetOf({1: "a"})` matches `{True: "a"}`, and those two dicts are `==`. |
| Matchers.ContainerEmptiness | testslide/core/matchers.py:422-447 | EmptyList/NotEmptyList are false off a list and complementary on lists; the same for EmptyDict/NotEmptyDict. |
| Matchers.SizedEmptiness | testslide/core/matchers.py:546-556 | AnyEmpty/AnyNotEmpty raise TypeError on unsized values and are complementary on sized ones. |
| Matchers.TruthinessMatchers | testslide/core/matchers.py:559-571 | Any matches everything; AnyTruthy and AnyFalsey follow `bool(other)` and are complementary. |
| Matchers.ContainingAgreesOnLists | testslide/core/matchers.py:384-518 | On lists AnyContaining/AnyContainingAll agree with ListContaining/ListContainingAll; off lists the list matchers are false. |
| Matchers.SafeNeverRaises | testslide/core/matchers.py:107-153 | Matchers built only from type tests, int bounds and string tests never raise during comparison. |
| LegacyMatchers.Embed | testslide/matchers.py:32-506 | Maps each legacy matcher to the core matcher of the same class and arguments, preserving "chained" and "plain value". |
| LegacyMatchers.AgreesWithCore | testslide/matchers.py:50-506 | Every legacy matcher compares exactly like its core counterpart, on every value. |
| LegacyMatchers.Combine | testslide/matchers.py:32-100 | AlreadyChained iff the left operand is chained; the result is chained and equals the core combination. |
| LegacyMatchers.Invert | testslide/matchers.py:80-88 | AlreadyChained iff the operand is chained; equals the core inversion. |
| LegacyMatchers.CombinatorMeaning | testslide/matchers.py:50-100 | On answering operands, `&`, `\|`, `^` give and, or, equivalence. |
| LegacyMatchers.BinaryMeaning | testslide/matchers.py:50-100 | A built And/Or/Xor node answers and/or/equivalence of its operands. |
| LegacyMatchers.InvertMeaning | testslide/matchers.py:80-88 | `~m` negates m's answer. |
| LegacyMatchers.ChainOnlyOnce | testslide/matchers.py:10-47 | A combination refuses every further combination or inversion. |
| LegacyMatchers.NewNotThisInt | testslide/matchers.py:192-198 | ValueError on a non-int; otherwise matches exactly the other ints. |
| LegacyMatchers.NewIntBetween | testslide/matchers.py:201-207 | ValueError on a non-int bound; otherwise the ints within both bounds inclusive. |
| LegacyMatchers.NewIntComparison | testslide/matchers.py:210-244 | The four one-sided bounds: ValueError on a non-int, otherwise the ints on the right side of the bound. |
| LegacyMatchers.NewStrMatcher | testslide/matchers.py:337-371 | ValueError on a non-str needle; otherwise the strs containing, starting with, ending with it. |
| LegacyMatchers.NewListContainingAll | testslide/matchers.py:395-412 | ValueError unless a list; otherwise the lists holding every element. |
| LegacyMatchers.NewDictContainingKeys | testslide/matchers.py:441-456 | ValueError unless a list; false off a dict; on a dict, all keys present. |
| LegacyMatchers.NewDictSupersetOf | testslide/matchers.py:459-477 | ValueError unless a dict; otherwise dicts with every key and an equal value. |
| LegacyMatchers.NewAnyInstanceOf | testslide/matchers.py:495-506 | ValueError unless a class; otherwise its instances. |
| LegacyMatchers.EmptinessMatchers | testslide/matchers.py:415-439 | EmptyList/NotEmptyList/EmptyDict/NotEmptyDict: the container type, then zero or non-zero size. |
| LegacyMatchers.GenericMatchers | testslide/matchers.py:480-492 | Any is always true; AnyTruthy/AnyFalsey follow `bool(other)`. |
| MockCallable.FirstAccepting | testslide/mock_callable.py:279-301 | The runner `_real_call` picks is the first whose `can_accept_args` is true, with every earlier one false; none iff all are false; an error only if some runner's comparison raised after all earlier ones answered false. Each comparison is the tuple `==` of `(args, kwargs)`, positional pairs first (ArgsEqMeaning). |
| MockCallable.RegisteredCalls | testslide/mock_callable.py:316-318 | The accepted argument sets of the runners that have one: empty iff no runner was given `for_call`, and each one listed. |
| MockCallable.CallableMock.RealCall | testslide/mock_callable.py:279-301 | A call updates the runner list and produces the result as the pick-then-run specification says; the original callable is untouched. |
| MockCallable.CallableMock.Next | testslide/mock_callable.py:231-240 | `next()` on a yield runner's iterator advances only that runner's position and returns the value there, or StopIteration. |
| MockCallable.CallableMock.constructor | testslide/mock_callable.py:273-278 | A new mock has no runners and no `original_callable` attribute yet (`None` in the model). |
| MockCallable.NewestWins | testslide/mock_callable.py:475-487 | A runner inserted at the front that accepts a call is the one that answers it. |
| MockCallable.ShadowedRunnerIdle | testslide/mock_callable.py:279-301 | A runner behind an accepting one is never touched by that call. |
| MockCallable.AnyCallAccepted | testslide/mock_callable.py:121-127 | Without `for_call` a runner accepts every call. |
| MockCallable.LiteralArgsEq | testslide/mock_callable.py:121-127 | Stored positional values compare equal iff the lengths agree and each pair is `==`. |
| MockCallable.ArgsEqMeaning | testslide/mock_callable.py:121-127 | The tuple `==` of stored and given positional arguments: true iff the lengths agree and every pair is `==`; it raises iff a pair within both lengths raises while every earlier pair compared equal, whatever the lengths. |
| MockCallable.PrefixComparedBeforeLength | testslide/mock_callable.py:121-127 | Pairs are compared before lengths: a stored `AnyContaining(1)` then `2`, against a call with the one argument `5`, raises TypeError although the lengths differ. |
| MockCallable.LiteralKwargsAll | testslide/mock_callable.py:121-127 | Stored keywords compare equal iff each is given with an `==` value. |
| MockCallable.ExactCallAccepted | testslide/mock_callable.py:502-516 | `for_call(*args, **kwargs)` with plain values accepts exactly the calls with `==` positional arguments and the same keywords with `==` values. |
| MockCallable.EmptyForCallAcceptsOnlyEmptyCall | testslide/mock_callable.py:502-516 | `for_call()` accepts only the call with no arguments. |
| MockCallable.UnmatchedCallError | testslide/mock_callable.py:279-301 | When no runner accepts, nothing changes and the error is UnexpectedCallArguments iff some runner had `for_call` (UndefinedBehaviorForCall otherwise), listing exactly the registered calls. |
| MockCallable.CallCountsOnce | testslide/mock_callable.py:106-115 | A call raises the call count of the runner that ran by one and changes no other runner; an unaccepted call changes nothing. |
| MockCallable.ReturnValuesStep | testslide/mock_callable.py:208-219 | A return-values runner answers the first remaining value and keeps the rest. |
| MockCallable.ReturnValuesInOrder | testslide/mock_callable.py:208-219 | `to_return_values(xs)`: successive calls return xs in order, then every further call raises UndefinedBehaviorForCall; each call counts once. |
| MockCallable.ExhaustedRaises | testslide/mock_callable.py:208-219 | An exhausted return-values runner raises UndefinedBehaviorForCall on every call and still counts it. |
| MockCallable.YieldSharesPosition | testslide/mock_callable.py:242-244 | Every call of a yield runner returns the same iterator and leaves its position alone. |
| MockCallable.YieldInOrder | testslide/mock_callable.py:231-240 | `next()` gives the values in order from the position, then StopIteration. |
| MockCallable.NotCalledAssertion | testslide/mock_callable.py:694-701 | `and_assert_not_called()` fails iff the runner ran at least once. |
| MockCallable.AtMostWindow | testslide/mock_callable.py:177-196 | `at_most(t)` holds exactly for one to t calls: zero calls fail it as well. |
| MockCallable.AtLeastAndAtMostIsExactly | testslide/mock_callable.py:137-196 | `at_least(t)` together with `at_most(t)` holds iff `exactly(t)` does. |
| MockCallable.StoresFunctionDirect | testslide/mock_callable.py:351-364 | True iff some class of the MRO stores a plain function under the name. |
| MockCallable.ClassInstanceMethodRefused | testslide/mock_callable.py:390-425 | Mocking an instance method at its class raises ValueError and changes nothing (the attribute being callable, so the signature step passes). |
| MockCallable.PlainUnpatchAgrees | testslide/mock_callable.py:390-425 | On callable originals the truthiness test of the plain-branch unpatcher agrees with "was there an entry". |
| MockCallable.MockPatchSpec | testslide/mock_callable.py:390-425 | `_patch`: a missing attribute on an ordinary target raises its AttributeError and changes nothing; on success the original is the attribute read, and it is callable, while on a StrictMock the original is None and the unpatcher has nothing to restore. |
| MockCallable.NonCallableAttributeRefused | testslide/mock_callable.py:396-400 | An attribute whose signature `_add_signature_validation` cannot read (not callable on the target, or on a StrictMock's template) is refused with TypeError and nothing changes. |
| MockCallable.DoubleMockUnpatchDeletes | testslide/mock_callable.py:387-425 | On a StrictMock without a template that holds the attribute, `_patch` returns no original and an unpatcher with nothing to restore: the double reads the mock, and after unpatching the attribute is gone (AttributeError). |
| MockCallable.ModuleFunctionRoundTrip | testslide/mock_callable.py:21-42 | Mocking a module function installs the mock; tearing down restores the function, forgets the mock and raises nothing. |
| MockCallable.CleanupsForgetRegistered | testslide/mock_callable.py:33-42 | The teardown only removes registry keys, and when no closure raises it removes exactly the registered ones. |
| MockCallable.Registry.constructor | testslide/mock_callable.py:26-52 | The registry starts with no mocks (`_MockCallableDSL.CALLABLE_MOCKS`, line 429), no cleanups (`_unpatchers`) and no assertions. |
| MockCallable.Registry.UnpatchAll | testslide/mock_callable.py:33-42 | As intended (Findings row 1): whatever happens the closure list ends empty; heap, registry and error are those of running the closures, with the intended undo, in order up to the first that raises. |
| MockCallable.Registry.NewChain | testslide/mock_callable.py:431-473 | The first chain for a key registers the mock and its removal and, for a mock it created, patches the target and registers the unpatch, recording the original; a target attribute that is not callable is refused with TypeError. If the patch raises, the mock stays registered with no original. A later chain reuses the registered mock and changes nothing, and raises AttributeError when that mock has no original. |
| MockCallable.Registry.MockCallableFor | testslide/mock_callable.py:21-27 | `__new__` is refused with ValueError; otherwise a chain starts as `NewChain` states: patching the target on the first use of a key, TypeError for an attribute that is not callable, AttributeError on reuse of a key whose patch failed. |
| MockCallable.PatchFailureThenRetry | testslide/mock_callable.py:452-473 | When `_patch` raises on the first use of a key, that call reports the error, and a second `mock_callable` for the same key raises AttributeError. |
| MockCallable.BehaviourFor | testslide/mock_callable.py:518-646 | The checks of each behaviour method: a list for return/yield values, a callable for implementations and wrappers, an original for wrappers and call-original, an exception instance or class for `to_raise`. |
| MockCallable.WithPrepended | testslide/mock_callable.py:502-516 | `for_call` puts a truthy prepended first argument in front of the given arguments, and leaves them alone otherwise. |
| MockCallable.MockCallableDSL.constructor | testslide/mock_callable.py:431-443 | A chain starts with no runner and no pending `for_call` arguments, bound to its mock and original callable. |
| MockCallable.MockCallableDSL.AddRunner | testslide/mock_callable.py:475-487 | One behaviour per chain (ValueError on a second); the new runner takes the pending `for_call` arguments and goes to the front. |
| MockCallable.MockCallableDSL.Define | testslide/mock_callable.py:518-646 | A behaviour method's own check first, then `_add_runner`; on any error nothing changes. |
| MockCallable.MockCallableDSL.ForCall | testslide/mock_callable.py:502-516 | `for_call` sets the accepted arguments of this chain's runner, or keeps them for the runner to come. |
| MockCallable.MockCallableDSL.AndAssertCalled | testslide/mock_callable.py:648-701 | `at_least`/`at_most` refuse a count below 1, every assertion needs a behaviour (ValueError); otherwise the assertion is registered. |
| ObjectModel.ClassLookupFirst | testslide/patch.py:56-62 | A lookup along an MRO finds something iff some class holds the name, and then it is the first such class's entry. |
| ObjectModel.FallbackEntry | testslide/patch.py:34-39 | The proxy's MRO fallback returns only a truthy non-proxy entry of some parent; none iff every parent's entry is a proxy or falsy. |
| ObjectModel.FallbackFindsLookup | testslide/patch.py:34-39 | When the first entry along the parents is truthy and not a proxy, the fallback finds exactly it. |
| ObjectModel.ObjectSpace.SetAttribute | testslide/patch.py:20-21 | `setattr` leaves the heap the specification gives, or reports its error and changes nothing; on a proxy the value is filed per instance; on a StrictMock it goes through the double's `__setattr__` guard and `staticmethod` wrapping. |
| ObjectModel.ObjectSpace.DeleteAttribute | testslide/patch.py:42-44 | `delattr` leaves the heap the specification gives, or reports its error and changes nothing. |
| ObjectModel.ObjectSpace.NewProxy | testslide/patch.py:11-18 | A new proxy is appended holding the replaced attribute, the name and an empty override table. |
| ObjectModel.ProxyReadThroughClass | testslide/patch.py:26-27 | Reading a proxy through the class gives the proxy itself. |
| ObjectModel.ProxyOverrideWins | testslide/patch.py:28-29 | An instance with an override reads that override. |
| ObjectModel.ProxyReadsOriginal | testslide/patch.py:31-32 | An instance without an override reads the replaced function bound to itself. |
| ObjectModel.ProxyReadsParent | testslide/patch.py:33-39 | With nothing replaced, an instance without an override reads the parents' function bound to itself. |
| ObjectModel.SetThenGet | testslide/patch.py:20-29 | Setting an attribute on an instance and reading it back gives the value, through a proxy's table or the instance dict. |
| ObjectModel.SetThenGetAny | testslide/patch.py:20-29 | The same for any object kind, barring static and class methods set on a class, and values a StrictMock's `__setattr__` does not give back unchanged. |
| ObjectModel.DoubleSetThenGet | testslide/strict_mock.py:244-273 | On a StrictMock, a value set reads back unchanged iff `__setattr__` accepted it and either wrapped it in `staticmethod` or it is no function; without a template it always reads back. |
| ObjectModel.DoubleGuard | testslide/strict_mock.py:244-273 | With a template: NonExistentAttribute for a name neither the template nor the runtime attributes know; for a callable template attribute, an error iff the value is not callable; a known name never set reads UndefinedAttribute. |
| ObjectModel.SetAttrFrame | testslide/patch.py:20-21 | `setattr` changes no kind, no other dictionary entry and no other instance's override. |
| ObjectModel.ReadOwnClassProperty | testslide/patch.py:95-99 | An instance whose class holds a property reads the property's value. |
| Patch.StoresFunction | testslide/patch.py:56-62 | True iff some class of the MRO holds a plain function under the name, a proxy being looked through to what it replaced. |
| Patch.IsInstanceMethod | testslide/patch.py:47-63 | Never for a module; for an instance, true iff some class of its type's MRO holds (possibly behind a proxy) a plain function. |
| Patch.MockInstanceAttribute | testslide/patch.py:66-87 | The heap and unpatcher are those of the `_mock_instance_attribute` specification. |
| Patch.Patch | testslide/patch.py:90-117 | The heap and unpatcher are those of the `_patch` specification. |
| Patch.Unpatch | testslide/patch.py:81-85 | Running an unpatcher leaves the heap its intended undo gives, or reports the error and changes nothing. |
| Patch.MockInstanceAttributeHeap | testslide/patch.py:76-79 | The class gets a new proxy replacing its entry, holding the override for this instance; nothing else changes. |
| Patch.MockInstanceAttributeRoundTrip | testslide/patch.py:66-87 | Patching an instance attribute and then unpatching gives back exactly the dictionaries and kinds it started from. |
| Patch.MockInstanceAttributeIsolation | testslide/patch.py:66-87 | After patching, the patched instance reads the new value while another instance of the same class still reads its method. |
| Patch.PatchPlainRoundTrip | testslide/patch.py:107-115 | The plain branch: the target reads the new value, and after unpatching it reads the original again (on a StrictMock, when its `__setattr__` gives both values back unchanged). |
| Patch.PatchPropertyRoundTrip | testslide/patch.py:95-105 | The property branch: the instance reads the new value through the replacement property, and unpatching puts the original property back. |
| Patch.PropertyBranchHeap | testslide/patch.py:95-99 | On a property the class entry is replaced by a property returning the new value, and nothing else changes. |
| Patch.PatchFrame | testslide/patch.py:90-117 | `_patch` changes only the patched attribute, on the target or its class. |
| Patch.MockInstanceAttributeFrame | testslide/patch.py:66-87 | `_mock_instance_attribute` changes only the patched attribute. |
| Patch.FalsyAttributeDeleted | testslide/patch.py:110-115 | As written, a module attribute holding a falsy value is deleted by the unpatcher, where the intended undo restores it. |
| Patch.FalsyPropertyNotRestored | testslide/patch.py:101-105 | As written, unpatching a property with a falsy value tries `delattr` on the instance and raises AttributeError. |
| Patch.FalsyClassEntryDropped | testslide/patch.py:81-85 | As written, a falsy class entry is deleted rather than restored by `unpatch_class`. |
| Patch.UndoAsWritten | testslide/patch.py:81-115 | The closures as written are the intended undo with the flag replaced by the truthiness of the saved value: they agree with it when the two match, and delete where a flag is set but the saved value is falsy. |
| PatchAttribute.Register | testslide/patch_attribute.py:106-107 | Storing an unpatcher keeps the tables consistent: a new key goes to the end of the iteration order, an existing key keeps its place, the restore values are untouched. |
| PatchAttribute.AttributePatcher.constructor | testslide/patch_attribute.py:14-15 | Both tables start empty. |
| PatchAttribute.AttributePatcher.PatchAttribute | testslide/patch_attribute.py:37-107 | As intended (Findings row 2): heap, tables and error are those of the intended `patch_attribute` specification. |
| PatchAttribute.AttributePatcher.CarryOut | testslide/patch_attribute.py:101-107 | After the checks: record the restore value, patch, register the unpatcher, as the specification says. |
| PatchAttribute.AttributePatcher.UnpatchAll | testslide/patch_attribute.py:18-34 | As intended (Findings row 1): every unpatcher runs, with the intended undo, in insertion order whatever the others raise; both tables end empty; a RuntimeError is raised iff some unpatcher raised. |
| PatchAttribute.UndoAllFailuresBounded | testslide/patch_attribute.py:23-28 | At most one exception per unpatcher is collected. |
| PatchAttribute.PrivateNameRefused | testslide/patch_attribute.py:51 | A private name without `allow_private` is refused with ValueError before anything changes. |
| PatchAttribute.CallableOrClassRefused | testslide/patch_attribute.py:81-99 | On an ordinary target, a current value that is a class or a callable is refused with ValueError and nothing changes. |
| PatchAttribute.CallableTemplateAttributeRefused | testslide/patch_attribute.py:58-66 | On a StrictMock whose template attribute is a callable (not a class), the patch is refused with ValueError. |
| PatchAttribute.FirstPatchRecords | testslide/patch_attribute.py:82-107 | The first patch of a key on an ordinary target records the value read, appends the key and stores its unpatcher. |
| PatchAttribute.RepatchKeepsTables | testslide/patch_attribute.py:82-85 | A later patch of the same key on an ordinary target leaves both tables as they were. |
| PatchAttribute.RepatchDoubleKeepsTables | testslide/patch_attribute.py:74-80 | As intended, a re-patch of a StrictMock also leaves the tables alone. |
| PatchAttribute.ModuleRoundTrip | testslide/patch_attribute.py:18-107 | As intended (Findings row 1): patching a module attribute once or twice and then unpatching everything gives back the original value and empty tables, with no error. |
| PatchAttribute.ModuleFirstPatch | testslide/patch_attribute.py:86-107 | The first patch of a module attribute sets it and records its value and a restoring unpatcher. |
| PatchAttribute.ModuleRepatch | testslide/patch_attribute.py:82-107 | Re-patching a module attribute sets the new value and leaves the tables alone. |
| PatchAttribute.ModulePatch | testslide/patch.py:107-115 | On a module `_patch` is a plain `setattr` with a plain unpatcher. |
| PatchAttribute.DoublePatch | testslide/patch.py:107-115 | On a StrictMock `_patch` stores what the double's `__setattr__` makes of the value, with a plain unpatcher, or raises the guard's error and changes nothing. |
| PatchAttribute.DoubleFirstPatch | testslide/patch_attribute.py:74-76 | The first patch of a configured StrictMock attribute records a restoring unpatcher. |
| PatchAttribute.DoubleSecondPatchAsWritten | testslide/patch_attribute.py:74-80 | As written, the second patch of a StrictMock attribute replaces the unpatcher by one that deletes. |
| PatchAttribute.DoubleSecondPatchSpec | testslide/patch_attribute.py:74-80 | As intended, the second patch leaves both tables alone. |
| PatchAttribute.DoubleRepatchLosesValue | testslide/patch_attribute.py:74-107 | As written, patching a configured StrictMock attribute twice and unpatching leaves the attribute missing. |
| PatchAttribute.UnpatchOne | testslide/patch_attribute.py:18-34 | As intended (Findings row 1): unpatching a single plain unpatcher restores its value, or deletes the attribute when it has none. |
| PatchAttribute.DoubleRepatchRoundTrip | testslide/patch_attribute.py:74-107 | As intended (Findings row 2), the same sequence leaves the attribute reading as it did before the first patch. |
| PatchAttribute.PatchAttributeAsWritten | testslide/patch_attribute.py:58-107 | The code as written agrees with the intended `patch_attribute` except on a StrictMock whose key is registered, where a successful call replaces the registered unpatcher by one with nothing to restore. |
| MockConstructor.OriginalCallable | testslide/mock_constructor.py:81-82 | The generated `original_callable` calls the original class with the first argument dropped, and raises TypeError when there is none. |
| MockConstructor.ConstructorMocks.constructor | testslide/mock_constructor.py:17-32 | The registry of mocked classes and the unpatcher list start empty. |
| MockConstructor.ConstructorMocks.MockConstructor | testslide/mock_constructor.py:43-90 | Heap, registry, unpatchers and hand-off (or error) are those of the `mock_constructor` specification, including the TypeError of `type()` for a class that cannot be subclassed, raised after the unpatcher is appended. |
| MockConstructor.UnsubclassableStraysUnpatcher | testslide/mock_constructor.py:65-77 | Mocking `bool`, `NoneType` or the function type held by a module raises TypeError with the module and `_mocked_classes` unchanged but one unpatcher appended; the next teardown puts the class back and then raises KeyError on its `del`. |
| MockConstructor.ConstructorMocks.UnpatchAll | testslide/mock_constructor.py:20-29 | The unpatchers run in order until one raises, and the list ends empty in any case. |
| MockConstructor.NonStringNameRefused | testslide/mock_constructor.py:44-45 | A class name that is not a string is refused with ValueError and nothing changes. |
| MockConstructor.NotAClassRefused | testslide/mock_constructor.py:61-63 | An attribute that is not a class is refused with ValueError and nothing changes. |
| MockConstructor.FirstMockInstallsSubclass | testslide/mock_constructor.py:60-79 | The first mock puts on the module a subclass whose `__new__` is the new mock and whose MRO continues with the original's; the pair is recorded and one unpatcher added. |
| MockConstructor.RemockReuses | testslide/mock_constructor.py:51-58 | Mocking the same class again, while the target still holds the mocked class, hands back the same `__new__` mock and changes nothing. |
| MockConstructor.ChangedAfterMockAsserts | testslide/mock_constructor.py:51-57 | If the target's attribute changed after mocking, a re-mock raises AssertionError and changes nothing. |
| MockConstructor.UnpatchAllForgets | testslide/mock_constructor.py:20-29 | Teardown always empties the unpatcher list; when nothing raises, every recorded key leaves the registry. |
| MockConstructor.ModuleClassRoundTrip | testslide/mock_constructor.py:20-90 | Mocking a module's class and tearing down leaves the original class on the module and an empty registry. |
| StrictMockModel.CheckTemplate | testslide/strict_mock.py:133-162 | A truthy template that is not a class raises AttributeError in `__new__` iff it has no `__name__`, and otherwise ValueError in `__init__`; a class (always given as `ClassArg`) is kept; a falsy value means no template. |
| StrictMockModel.StoredValue | testslide/strict_mock.py:244-264 | As intended (Findings row 3), `__setattr__`: NonExistentAttribute iff the template lacks the name; NonCallableValue iff the template's attribute is callable and the value is not; otherwise what is stored is never a bare function and is callable iff the value is. |
| StrictMockModel.StoredValueAsWritten | testslide/strict_mock.py:244-264 | `__setattr__` as written: the same two errors under the same conditions; what is stored is callable iff the value is, and is a bare function exactly when a function is set on a name the template does not make callable. |
| StrictMockModel.Lookup | testslide/strict_mock.py:264-268 | The class-dictionary lookup finds a name iff some dictionary along the double's classes holds it, and returns that entry. |
| StrictMockModel.ReadFrom | testslide/strict_mock.py:266-273 | A read succeeds iff some class of the double holds the name; otherwise UndefinedAttribute iff the template has the name, AttributeError otherwise. |
| StrictMockModel.InitialEntries | testslide/strict_mock.py:179-186 | What `__init__` stores satisfies the setter's invariant (names the template accepts, callable where the template's is, no bare function). |
| StrictMockModel.CopiedEntries | testslide/strict_mock.py:307-309 | As intended (Findings row 3): `__copy__` re-stores exactly the original's names, and the result keeps the setter's invariant. |
| StrictMockModel.MockClass.constructor | testslide/strict_mock.py:143-145 | The per-instance class starts with an empty dictionary. |
| StrictMockModel.StrictMock.Init | testslide/strict_mock.py:147-186 | The double keeps its template and runtime attributes; its own fresh class comes first, ahead of the given bases, and holds the initial entries. |
| StrictMockModel.StrictMock.Create | testslide/strict_mock.py:133-186 | Construction raises exactly the error `CheckTemplate` gives for a truthy non-class template (AttributeError without `__name__`, ValueError with one); otherwise a fresh double with its own fresh class holding the initial entries. |
| StrictMockModel.StrictMock.SetAttribute | testslide/strict_mock.py:244-264 | As intended (Findings row 3): only the double's own class changes: the stored value is added under the name, or the error is reported and nothing changes. |
| StrictMockModel.StrictMock.DeleteAttribute | testslide/strict_mock.py:275-277 | The name leaves the double's own class, if it was there; nothing else changes. |
| StrictMockModel.StrictMock.CopyOnto | testslide/strict_mock.py:307-309 | As intended (Findings row 3): the copy loop adds every entry of the original's class, set again through the setter, to the copy's class. |
| StrictMockModel.StrictMock.Copy | testslide/strict_mock.py:302-311 | The copy's class is, as written, a fresh subclass of the original's class, holding the initial entries plus the copied ones, each stored by the intended setter (Findings row 3). |
| StrictMockModel.StrictMock.CopyDetached | testslide/strict_mock.py:302-311 | The intended copy has a single fresh class of its own, holding the initial entries plus the copied ones. |
| StrictMockModel.NoTemplateAcceptsAll | testslide/strict_mock.py:260-264 | Without a template every name may be set, and what is stored calls what the value calls. |
| StrictMockModel.ReadAfterSet | testslide/strict_mock.py:244-273 | Setting then reading gives the value back, behind the signature check where the template's attribute is callable. |
| StrictMockModel.StoredValueAgrees | testslide/strict_mock.py:244-264 | Except for a callable set on a name the template does not call for, the code as written stores the same thing as the intended setter. |
| StrictMockModel.RuntimeCallableBoundAsWritten | testslide/strict_mock.py:250-264 | As written, a function set on a runtime attribute of a double with a template reads back as a method bound to the double. |
| StrictMockModel.ReadAfterDelete | testslide/strict_mock.py:266-277 | After deleting a name from a double with a single class, reads fail with the error of a never-set name. |
| StrictMockModel.EnterYieldsMock | testslide/strict_mock.py:179-186 | With a context-manager template, `__enter__` gives the double itself and `__exit__` gives None. |
| StrictMockModel.CopiedEntryReadsAlike | testslide/strict_mock.py:302-311 | A copied entry reads on the copy as something that calls what the original's entry calls. |
| StrictMockModel.CopiedEnterYieldsOriginal | testslide/strict_mock.py:302-311 | A copy keeps the original's `__enter__`, which gives the original double rather than the copy. |
| StrictMockModel.CopyDeleteStillReadsOriginal | testslide/strict_mock.py:302-311 | As written, a name deleted from the copy still reads the original's entry. |
| StrictMockModel.CopySeesLaterWrites | testslide/strict_mock.py:302-311 | As written, a name the original sets after the copy was made becomes readable on the copy. |
| Lib.BailIfPrivate | testslide/lib.py:346-357 | ValueError exactly for a name starting with `_` that is not a dunder, unless private names are allowed. |
| Lib.FirstDefinitionTakesSelf | testslide/lib.py:262-273 | The MRO walk returns at the first class defining the name: true iff there is one and its entry is not a staticmethod. |
| Lib.SkipFirstArg | testslide/lib.py:252-273 | False for a module; otherwise true iff the first class of the MRO (the class's own, or the instance's class's) defining the name does not hold a staticmethod. |
| Lib.PositionalFailures | testslide/lib.py:217-231 | The failing positional names are exactly the parameters at `i + offset` whose argument fails its annotation. |
| Lib.KeywordFailures | testslide/lib.py:233-241 | The failing keyword names are exactly the keywords whose value fails its annotation. |
| Lib.ValidateCallableArgTypes | testslide/lib.py:208-249 | The loops produce the outcome of the argument-type specification: an extra argument, the collected failures, or a pass. |
| Lib.ReportedNamesAreAnnotated | testslide/lib.py:145-151 | Every reported name has an annotation that is not a TypeVar. |
| Lib.FailingKeywordReported | testslide/lib.py:233-249 | A failing keyword argument is always reported, unless an extra positional argument ended the check first. |
| Lib.WrapSignatureAndTypeValidation | testslide/lib.py:276-293 | A mock template without a spec, or a template without the attribute, leaves the value unwrapped; otherwise it is wrapped with the template's first-argument rule. |
| Lib.WrapperSteps | testslide/lib.py:297-305 | Types are checked iff the signature bound and type validation is on; the value is called unless the signature or the type check failed. |
| Contexts.Ancestors | testslide/bdd/lib.py:555-565 | `parent_contexts` lists only contexts created before this one. |
| Contexts.Hierarchy | testslide/bdd/lib.py:668-673 | `hierarchy` lists only this context and contexts created before it. |
| Contexts.AncestorsAreTheParentChain | testslide/bdd/lib.py:555-565 | `parent_contexts` is empty iff there is no parent; otherwise it starts at the parent, each entry's parent is the next, and it ends at a top-level context. |
| Contexts.HierarchyOfChild | testslide/bdd/lib.py:567-573 | A child's hierarchy is its parent's followed by the child, and its depth is one more. |
| Contexts.HierarchyOfRoot | testslide/bdd/lib.py:668-680 | A top-level context's hierarchy is itself alone, and its full name is its name. |
| Contexts.FullNameOfChild | testslide/bdd/lib.py:675-680 | A child's full name is the parent's full name, ", ", and the child's name. |
| Contexts.SkipInherited | testslide/bdd/lib.py:682-687 | A context is skipped iff it is flagged or its parent is skipped. |
| Contexts.FocusInherited | testslide/bdd/lib.py:689-694 | A context is focused iff it is flagged or its parent is focused. |
| Contexts.AllHooksAlongHierarchy | testslide/bdd/lib.py:590-646 | Each inherited hook list is the own lists along the hierarchy, outermost context first. |
| Contexts.InnermostDefinitionWins | testslide/bdd/lib.py:574-622 | An inherited dict holds a name that some context of the hierarchy defines, with the innermost definition. |
| Contexts.UndefinedNameAbsent | testslide/bdd/lib.py:574-622 | A name no context of the hierarchy defines is not in the inherited dict. |
| Contexts.AllExamplesInSubtree | testslide/bdd/lib.py:657-666 | Every example `all_examples` returns belongs to the context or to a context below it. |
| Contexts.ContextTree.constructor | testslide/bdd/lib.py:512-513 | There are no contexts and no top-level contexts yet. |
| Contexts.ContextTree.NewContext | testslide/bdd/lib.py:517-551 | RuntimeError iff the name is taken among the parent's children (or the top-level contexts); otherwise one new context, top-level iff it has no parent and is not shared. |
| Contexts.ContextTree.AddChildContext | testslide/bdd/lib.py:699-710 | RuntimeError iff a child has the name; otherwise a new child appended to the parent's children. |
| Contexts.ContextTree.AddExample | testslide/bdd/lib.py:712-727 | RuntimeError iff the context has an example of that name; otherwise the example is appended and returned. |
| Contexts.ContextTree.AddFunction | testslide/bdd/lib.py:737-745 | AttributeError iff the context has a function or memoized attribute of that name; otherwise the function is added. |
| Contexts.ContextTree.AddMemoizedAttribute | testslide/bdd/lib.py:747-782 | Refused like `add_function`; otherwise the attribute is added and, with `before`, a materializing hook is appended to the before hooks. |
| Contexts.ContextTree.AddSharedContext | testslide/bdd/lib.py:784-790 | RuntimeError iff the shared context name is taken; otherwise it is added. |
| Contexts.ContextTree.AddTestCase | testslide/bdd/lib.py:792-822 | One more around hook, wrapping the test case, and nothing else. |
| Contexts.ContextTree.Reset | testslide/bdd/lib.py:825-829 | The top-level context list is emptied; the contexts themselves stay. |
| Contexts.ContextTree.ParentContexts | testslide/bdd/lib.py:555-565 | The loop computes `parent_contexts` as the ancestor function defines it. |
| Contexts.ContextTree.AllExamples | testslide/bdd/lib.py:657-666 | The loop computes `all_examples` as the specification function defines it. |
| Contexts.Appended | testslide/bdd/lib.py:355-359 | `append_exception` only appends to the list. |
| Contexts.RaiseCorrect | testslide/bdd/lib.py:373-386 | Nothing iff the list is empty; Skip iff some exception is a skip; the single exception when there is one; the aggregate of the whole list iff there are at least two and none is a skip. |
| Contexts.AppendKeepsFlat | testslide/bdd/lib.py:355-359 | Appending an aggregate contributes its items, so the list stays free of aggregates, and its length grows by the items appended. |
| Contexts.RaisedAggregateIsFlat | testslide/bdd/lib.py:373-386 | An aggregate that is raised is never nested. |
| Contexts.AggregatedExceptions.constructor | testslide/bdd/lib.py:351-353 | A new aggregate holds no exceptions. |
| Contexts.AggregatedExceptions.AppendException | testslide/bdd/lib.py:355-359 | The list becomes the appended list. |
| Contexts.AggregatedExceptions.Catch | testslide/bdd/lib.py:361-366 | A block that raised adds its exception; one that did not changes nothing. |
| Contexts.AggregatedExceptions.RaiseCorrectException | testslide/bdd/lib.py:373-386 | Raises what the specification says. |
| Contexts.SetAttributeSpec | testslide/bdd/lib.py:276-289 | A successful write sets exactly this name and keeps the others; a failure is AttributeError. |
| Contexts.WriteOnce | testslide/bdd/lib.py:276-289 | Once an attribute holds a truthy value only an equal value may be written again; a falsy or missing one may be set to anything. |
| Contexts.ContextData.constructor | testslide/bdd/lib.py:216-262 | New context data holds exactly the attributes `__init__` sets (`InitialData`). |
| Contexts.InitialData | testslide/bdd/lib.py:216-262 | `__init__` sets exactly the example, formatter, context, test case, sub-example aggregate, the four mock functions and the two after-function lists; `_after_functions` already holds `assert_sub_examples`, `_mock_callable_after_functions` is empty. |
| Contexts.InitialDataGuards | testslide/bdd/lib.py:255-289 | After `__init__`, a write to `_after_functions` fails iff the value differs from the list it holds, and `_mock_callable_after_functions` may be set to anything. |
| Contexts.ContextData.SetAttribute | testslide/bdd/lib.py:276-289 | The attribute table and error are those of the specification. |
| ExampleExecution.CallHook | testslide/executor/lib.py:207-213 | A coroutine function is refused with ValueError; anything else is called and raises what it raises. |
| ExampleExecution.AroundHooksNestInOrder | testslide/executor/lib.py:229-273 | Around hooks that call `wrapped` run first-declared outermost, then the before hooks, example and after hooks, and the run raises what the innermost part raises. |
| ExampleExecution.WrappersNest | testslide/executor/lib.py:257-273 | The around hook popped first is outermost and each wraps the remaining ones; the outcome is the innermost one. |
| ExampleExecution.UnwrappedAroundFails | testslide/executor/lib.py:257-273 | An around hook that returns without calling `wrapped` fails the example with RuntimeError and nothing inside it runs. |
| ExampleExecution.FirstBeforeFailureStops | testslide/executor/lib.py:235-245 | The first before hook that raises ends the block; later hooks and the example do not run. |
| ExampleExecution.BeforesThenExample | testslide/executor/lib.py:235-245 | When no before hook raises, all of them run in order and then the example, whose exception is the block's. |
| ExampleExecution.EveryAfterHookRuns | testslide/executor/lib.py:247-255 | Every after hook runs in list order whatever the others raise; earlier failures are kept first, and no failure adds nothing. |
| ExampleExecution.MockAssertionsRunLast | testslide/executor/lib.py:246-255 | The example's own after hooks run first, then the context's, and the mock-call assertions last, each group in reverse order. |
| ExampleExecution.CleanRunPasses | testslide/executor/lib.py:233-256 | With no around hook and nothing raising, befores, example and reversed afters all run and the example passes. |
| ExampleExecution.SingleFailureReraised | testslide/executor/lib.py:233-256 | A single failure of the example is re-raised unchanged, after every after hook has run. |
| ExampleExecution.TeardownAsWrittenStrandsPatches | testslide/executor/lib.py:285-290 | When the callable-mock cleanup raises, the constructor mocks and patched attributes stay registered and in place. |
| ExampleExecution.TeardownAllEmpties | testslide/executor/lib.py:285-290 | Running all three unpatch steps empties all three registries, and an error is reported iff one of them raised. |
| ExampleExecution.TeardownsAgreeWithoutErrors | testslide/executor/lib.py:285-290 | When nothing raises, the sequential teardown and the complete one give the same state. |
| ExampleExecution.TeardownAsWritten | testslide/executor/lib.py:285-290 | The sequential `finally` reports the same error as the complete teardown, always empties the callable-mock cleanups and leaves `CALLABLE_MOCKS` as the complete teardown does. |
| ExampleExecution.ExampleRunner.constructor | testslide/executor/lib.py:44-56 | A new runner has recorded no events. |
| ExampleExecution.ExampleRunner.FailIfCoroutine | testslide/executor/lib.py:207-213 | The call behaves as `CallHook` states. |
| ExampleExecution.ExampleRunner.RunAllHooks | testslide/executor/lib.py:215-273 | The recursive runner records exactly the events and raises exactly the exception `RunHooks` specifies. |
| ExampleExecution.ExampleRunner.RunInnermost | testslide/executor/lib.py:233-256 | The branch without around hooks records and raises what `Innermost` specifies. |
| ExampleExecution.ExampleRunner.RunBeforeBlock | testslide/executor/lib.py:235-245 | The loop over the before hooks records and catches what `BeforeBlock` specifies. |
| ExampleExecution.ExampleRunner.RunAfterHooks | testslide/executor/lib.py:247-255 | The loop over the reversed after hooks records the events and appends the failures `AfterBlock` specifies. |
| ExampleExecution.ExampleRunner.UnpatchEverything | testslide/executor/lib.py:285-290 | As intended (Findings row 4): all three registries and the object space end as the complete teardown specifies, with its error. |
| ExampleExecution.ExampleRunner.Run | testslide/executor/lib.py:275-290 | A skipped example runs no hook and raises Skip; otherwise the context's hooks run as `RunHooks` specifies; the registries are always drained by the complete teardown, as intended (Findings row 4), and a teardown error replaces the outcome. |
| ExecutorRunner.Filter | testslide/executor/runner.py:793-809 | An example is kept iff it is focused when focus is asked, no exclude regex finds its full name, the text filter (if set and non-empty) is a substring of it, and the filter regex (if set) finds it. |
| ExecutorRunner.Select | testslide/executor/runner.py:822-835 | The selection holds exactly the given examples that pass the filter, and no more of them. |
| ExecutorRunner.ExamplesPlaced | testslide/executor/runner.py:811-820 | Every example of a context's `all_examples` belongs to a context at or below it. |
| ExecutorRunner.AllExamples | testslide/executor/runner.py:811-820 | Every collected example lies in the tree below one of the given contexts. |
| ExecutorRunner.SelectedIff | testslide/executor/runner.py:822-835 | An example runs iff it is collected and passes the filter, with focus required exactly when focus is on and some example passes with it. |
| ExecutorRunner.FocusFallback | testslide/executor/runner.py:829-834 | When focus selects nothing, the unfocused selection is used. |
| ExecutorRunner.NothingSelected | testslide/executor/runner.py:822-828 | When no example passes, nothing is selected. |
| ExecutorRunner.MatchIsSearch | testslide/executor/runner.py:797-799 | A regex that matches at the start of a name is also found by search. |
| ExecutorRunner.VerdictOf | testslide/executor/runner.py:758-779 | Passed iff nothing was raised; skipped iff Skip was raised; otherwise failed with the raised exception. |
| ExecutorRunner.RunExample | testslide/executor/runner.py:713-741 | A focused example under `fail_if_focused` raises AssertionError without running; otherwise the example's own outcome. |
| ExecutorRunner.Executed | testslide/executor/runner.py:750-779 | The executed examples are a prefix of the selection, in order. |
| ExecutorRunner.ExecutedAll | testslide/executor/runner.py:750-779 | Without `fail_fast` every selected example is executed. |
| ExecutorRunner.FailFastStopsAtFirstFailure | testslide/executor/runner.py:772-775 | Under `fail_fast` no executed example but the last failed, and the run ends early only after a failure. |
| ExecutorRunner.ReportedOnce | testslide/executor/runner.py:750-779 | Each executed example is announced once and then reported exactly once, to skip, fail or success according to its verdict. |
| ExecutorRunner.Without | testslide/executor/runner.py:780-784 | The not-executed list holds exactly the collected examples that were not executed. |
| ExecutorRunner.RunSelection | testslide/executor/runner.py:750-779 | The loop executes, reports and sets the exit code as the specification functions state. |
| ExecutorRunner.Run | testslide/executor/runner.py:743-791 | Reports every executed example, then the not-executed ones; the exit code is 1 iff some executed example failed, else 0. |
| LegacyRunner.ResultsMeaning | testslide/runner.py:349-382 | An example is in the success, skip or fail list iff it was executed and passed, raised Skip, or failed with that exception. |
| LegacyRunner.ResultsPartition | testslide/runner.py:349-382 | Every executed example lands in exactly one of the three result lists. |
| LegacyRunner.Formatter.constructor | testslide/runner.py:33-46 | A new formatter has no current hierarchy and empty results. |
| LegacyRunner.Formatter.Reset | testslide/runner.py:65-82 | The current hierarchy and all three result lists are emptied. |
| LegacyRunner.Formatter.Start | testslide/runner.py:83-95 | Announces exactly the contexts of the example's hierarchy that the previous hierarchy lacked, in order, and remembers the new hierarchy. |
| LegacyRunner.Formatter.Success | testslide/runner.py:110-114 | The example is appended to the success list, nothing else changes. |
| LegacyRunner.Formatter.Fail | testslide/runner.py:116-120 | The example and its exception are appended to the fail list, nothing else changes. |
| LegacyRunner.Formatter.Skip | testslide/runner.py:122-126 | The example is appended to the skip list, nothing else changes. |
| LegacyRunner.WithoutNothing | testslide/runner.py:83-95 | After `reset()` the first example announces its whole hierarchy. |
| LegacyRunner.KnownContextsNotAnnounced | testslide/runner.py:83-95 | An example whose contexts were all in the previous hierarchy announces none. |
| LegacyRunner.ResultsOneMore | testslide/runner.py:358-375 | One more executed example joins exactly the result list of its verdict. |
| LegacyRunner.TallyOneMore | testslide/runner.py:358-375 | The recorded results and hierarchy stay those of the executed examples after one more. |
| LegacyRunner.RunOne | testslide/runner.py:358-375 | One loop iteration starts the example, runs it, records it under its verdict, and reports whether any example has failed so far. |
| LegacyRunner.RunSelection | testslide/runner.py:356-375 | The loop executes the prefix the fail-fast rule allows, records each example's result, and the exit code is 1 iff one failed. |
| LegacyRunner.Run | testslide/runner.py:349-382 | After a reset, the formatter holds exactly the results of the executed examples (selected with `re.match`), the not-executed list holds the rest, and the exit code is 1 iff some executed example failed, else 0. |

## Left out

- Asynchronous paths: the coroutine wrapping of `_CallableMock`, `_real_async_run_all_hooks_and_example`, the asyncio warning hooks and leaked-task checks. They need an event loop; the model covers the synchronous path only, where a coroutine function is refused.
- Introspection through `inspect`, `typeguard` and `dis`: signature binding and `_validate_callable_signature`, the type check itself, and the bytecode scan for attributes set in `__init__`. The type check is the oracle `typeOk`, and the names set in `__init__` are a given set of the template.
- `_validate_return_type` and the `_wrap_signature_and_type_validation` wrapper body beyond the steps it takes: they delegate to the same oracles.
- Floating point: the `Float*` matchers, and `Int*` matchers built from float arguments (values hold no floats).
- `RegexMatches` and `AnyWithCall`: they need a regex engine and user code. In the runners a compiled regular expression is an oracle (`Regex`): it says where a pattern matches, and `search` tries every position while `match` tries only the start.
- What user code does when it runs (hooks, examples, implementations, wrappers, original callables). Its outcome is given: `raises`, `wraps` and `outcome` in the execution and runner models, and `Invoked` results in the call engine.
- Formatter output, colours, terminal width, timings, `print` of captured output in quiet mode, and `sys.stdout` flushing. These produce text only.
- Shuffling with `random`: the examples are taken in context order.
- The import machinery: string targets resolved through `testslide._importer`, the CLI, the import profilers and the decorator DSL (`dsl.py`, `bdd/dsl.py`).
- `sub_example`, `_ContextData.__getattr__` (lazy memoized attributes and the `assert*` forwarding) and `_ContextData.after`. They only read the context's dicts or defer to `unittest`.
- The `extra_first_arg` hand-off from `mock_constructor` to `_MockCallableDSL`, which does not accept that argument. The constructor model stops at the registry and the installed class.
- `patch_attribute`'s StrictMock branch tests `isinstance(target, testslide.StrictMock)`, a class imported from testslide/core/strict_mock.py, which is not part of this model. It then reads `target._template`, which the StrictMock of testslide/strict_mock.py does not define. The model takes the template of the heap's `Double` object and runs the branch's checks on it.
- StrictMock's `__repr__`, `__str__`, the caller frame, `__module__` and `__doc__` entries, and the `__class__` property. `__deepcopy__` copies values with a memo; the model copies the entries as `__copy__` does.
- The first branch of StrictMock's `__getattr__`, which returns the whole class dict. Python calls `__getattr__` only after ordinary lookup failed, and with the model's values a name in the class dict is always found by ordinary lookup, so reads of stored names return the stored value.
- `_DescriptorProxy.__delete__`, in both copies: it tests membership of the instance in a table keyed by id, so it never deletes; it is not modelled.
- The two `_DescriptorProxy` classes, of testslide/patch.py:10-44 and testslide/mock_callable.py:320-348, are one heap value `ProxyV`. Their `__get__` and `__set__` are the same, but the MRO fallback skips only proxies of its own class (`type(method) is type(self)`); the model's fallback skips a parent's proxy of either kind.
- MockCallable.MockPatchSpec: installs the mock itself, where `_patch` installs the `with_sig_check` closure `_add_signature_validation` wraps around it; the signature binding that closure does is left out with the rest of `inspect`.
- `testslide.mock_constructor._get_class_or_mock`, `_is_mocked_class` and `_get_original_init`, which StrictMock's `__template` property and `__template_has_attr` call (testslide/strict_mock.py:192-221), are not defined in the testslide/mock_constructor.py this model follows. The model takes the template as given and never looks through a mocked class to its original `__init__`.
- ObjectModel.DoubleStore: `__setattr__` on the heap double wraps a callable for a callable template attribute in `staticmethod` but not in the signature check of `_add_signature_validation`, which needs `inspect`; the StrictMock model keeps that wrapper.
- ObjectModel.GetAttr: on a StrictMock only the entries set on its per-instance class are visible; StrictMock's own class attributes (`__repr__`, `__copy__`, the `__class__` property) are not entries of the heap double, and a classmethod or property value set on a double reads back as stored, without the descriptor call Python makes.
- Patch.IsInstanceMethod: a StrictMock is never taken for an instance whose class holds a plain function, so a bare function stored by `__setattr__` (Findings row 3) does not send `_patch` into the instance-method branch as it would in Python.
- StrictMockModel.ReadFrom: reads see only the per-instance class dictionaries along the double's classes. The entries `__init__` writes to the instance `__dict__` (`__template`, `__runtime_attrs`, `__name`, `__caller`) and StrictMock's own class attributes are not modelled; `StrictMockModel.Lookup` likewise.
- Values.PyEq: `ExcV` names an exception's kind, not the object, so two exception objects of one kind are `==` and one dict key (`Values.KeyOf`), where Python compares and hashes exceptions by identity. So a `for_call` argument or a matcher pattern holding an exception object accepts any exception of the same kind, where Python accepts only that object.
- Values beyond `None`, bools, ints, strs, lists, dicts, functions, classes, exceptions and the heap's objects: tuples, sets, frozensets, deques, ranges and iterators are not modelled, so the matchers over any iterable or sized value are stated on lists, dicts and strs. Matchers also cannot be nested inside the list or dict a matcher is built from (as testslide's own matcher tests do): elements and values there are plain values compared with `==`.
- MockCallable.BehaviourFor: `to_raise` with a callable that is not an exception class calls it; the model assumes the call gives a non-exception and so a ValueError.
- MockCallable.Registry.UnpatchAll: the closures run with the intended undo (Findings row 1). As written they are `Patch.UndoAsWritten`, which gives the same result whenever the saved entry is absent or truthy, as a callable is (`MockCallable.PlainUnpatchAgrees`); `_patch` only goes ahead on a callable attribute (`MockCallable.NonCallableAttributeRefused`), but the entry it saves from the target's own `__dict__` is not proved callable.
- PatchAttribute.AttributePatcher.PatchAttribute: runs the intended specification (Findings row 2); the code as written is `PatchAttribute.PatchAttributeAsWritten`.
- PatchAttribute.AttributePatcher.UnpatchAll: runs the unpatchers with the intended undo (Findings row 1); as written a falsy saved value is deleted (`Patch.FalsyAttributeDeleted`).
- PatchAttribute.ModuleRoundTrip: states the intended round trip (Findings row 1); as written it fails for a falsy attribute.
- PatchAttribute.UnpatchOne: states the intended undo (Findings row 1).
- StrictMockModel.StoredValue: the intended setter (Findings row 3); `StrictMockModel.StoredValueAsWritten` is the code as written, and `StrictMockModel.StoredValueAgrees` says where they coincide.
- StrictMockModel.CopiedEntries: re-stores through the intended setter (Findings row 3).
- StrictMockModel.StrictMock.SetAttribute: stores what the intended setter gives (Findings row 3).
- StrictMockModel.StrictMock.CopyOnto: sets through the intended setter (Findings row 3).
- StrictMockModel.StrictMock.Copy: sets the copied entries through the intended setter (Findings row 3).
- ExampleExecution.ExampleRunner.UnpatchEverything: runs the complete teardown (Findings row 4); the `finally` as written is `ExampleExecution.TeardownAsWritten`.
- ExampleExecution.ExampleRunner.Run: drains the registries with the complete teardown (Findings row 4).
- LegacyRunner.Run: requires `failIfFocused` to be off, because the legacy runner has no such option while the shared options record does. It also takes the `Skip` an example raises to carry a `reason`, which testslide/runner.py:365-366 reads. The only `Skip` class in testslide/bdd/lib.py:38-43 has no `reason`, and the `Skip` that runner.py imports from `testslide` is not part of this model. With that class, a skipped example would raise AttributeError out of `run()` instead of being reported as skipped.
- LegacyRunner.RunOne: records a skip as `formatter.skip(example, reason=skip.reason)` would, on the same assumption that the raised `Skip` has a `reason`.
- LegacyRunner.RunSelection: carries `LegacyRunner.RunOne`'s assumption that the raised `Skip` has a `reason`.
- Object identities: `id()` is an object index of the heap; fresh objects the source allocates (new classes, mocks, proxies) are parameters.

## Findings

| source | as written | input that shows it | evidently intended | confidence | as-written member | corrected member |
|---|---|---|---|---|---|---|
| testslide/patch.py:81-115 | The unpatchers restore `restore_value` only when it is truthy and delete the attribute otherwise; the `restore` flag goes unused. | A module attribute holding `0` (or `""`, `None`, `[]`), patched and then unpatched: the attribute is gone. | Restore whatever the attribute held before, falsy or not, and delete only when there was nothing. | high, not executed | Patch.FalsyAttributeDeleted | Patch.PatchPlainRoundTrip |
| testslide/patch_attribute.py:74-107 | For a StrictMock target `skip_unpatcher` is always false, so a second patch of the same key replaces the first unpatcher with one built from `restore=False`. | A double without a template whose attribute holds `v0`, patched to `v1`, then to `v2`, then unpatched: the attribute is deleted instead of holding `v0`. | Keep the first unpatcher, as the non-StrictMock branch does, so unpatching restores `v0`. | low, not executed: the StrictMock of testslide/strict_mock.py has no `_template`, so with it line 59 raises AttributeError before this code runs; the class `testslide.StrictMock` actually names (testslide/core/strict_mock.py) is not part of this model | PatchAttribute.DoubleRepatchLosesValue | PatchAttribute.DoubleRepatchRoundTrip |
| testslide/strict_mock.py:250-264 | With a template, a callable is wrapped in `staticmethod` only when the template's attribute is callable, so a callable set on a runtime attribute is stored bare on the class. | A double with a template and runtime attribute `cb`, given `cb = f` for a plain function `f`: reading `cb` gives `f` bound to the double, so calling it passes the double as an extra first argument. | Store any callable so that reading it back gives the callable itself, as happens without a template. | medium, not executed | StrictMockModel.RuntimeCallableBoundAsWritten | StrictMockModel.ReadAfterSet |
| testslide/executor/lib.py:285-290 | The `finally` block calls the three unpatch functions one after another, so an exception from one skips the rest. | An example whose callable-mock unpatcher raises: the constructor mocks and patched attributes stay installed into the next example. | Run all three teardown steps whatever the earlier ones raise, and report the first error. | medium, not executed | ExampleExecution.TeardownAsWrittenStrandsPatches | ExampleExecution.TeardownAllEmpties |
| testslide/strict_mock.py:302-311 | `__copy__` builds the copy with `type(self)(...)`, so the copy's per-instance class is a subclass of the original's. | Copy a double that has `x` set, then delete `x` on the copy: reading `x` on the copy still gives the original's value; likewise a name set on the original later becomes readable on the copy. | The copy gets a class of its own derived from `StrictMock`, sharing nothing with the original (`StrictMock.CopyDetached`). | low, not executed | StrictMockModel.CopyDeleteStillReadsOriginal | StrictMockModel.ReadAfterDelete |
