# cxxutils fallible values, modelled in Dafny

This project models the fallible-value library of `include/cxxutils/` and proves what it promises.

- `optional<T>` is an owning container of zero or one `T`. It is modelled as a class `Optionals.Optional` whose only field is an `Option<T>`. Its constructors and assignments state which object ends up holding the value and which is left empty.
- `Result<T>` is a pair of slots, a success value and a `ResultException` error record, of which exactly one is populated. It is modelled as the datatype `Results.Result` with the validity predicate `Valid`, which is what `ensureValid` checks. The combinators `map`, `take_map`, `take_map_void`, `flatmap`, `on_failure` and `translateError` are higher-order functions over it. `Result<void>` is `Results.VoidResult`, which has only the error slot. The module `ResultLaws` proves the functor and monad laws, the short-circuit on failure, and that `Result<void>` is the unit case of `Result<T>`.
- The test comparators are records `Comparators.Comparator` of an `ok` test and a `describe_failure` text. The modules `StringComparators`, `ResultComparators` and `TestUtils` build the concrete ones. `TestUtils` also holds the renderers and `assertThatImpl` / `failImpl`.

How C++ behaviour is expressed:

- A call that may throw returns `Wrappers.Outcome`, which is `Returns(result)` or `Throws(error)`. This covers `MissingOptionalValue` from `getValue`, the `ResultException` from `getValueOrThrow`, the `runtime_error` from `ensureValid`, and `AssertionFailedException`.
- Undefined behaviour becomes a `requires`: taking from an empty optional, and reading the value of a failed `Result`. So does the `assert` in `getValue`, and so does calling a `Result<T>` query on a `Result` that `ensureValid` would reject.
- The side effects of the `take_map_void` transform and of the `on_failure` handler are a state `S` that the function transforms.
- Streaming an arbitrary `T` is a parameter `render: T -> string`.

## Model

| member | source | states |
|---|---|---|
| `Optionals.Optional.Empty` | include/cxxutils/optional.hpp:15 | a default-constructed optional holds nothing |
| `Optionals.Optional.Of` | include/cxxutils/optional.hpp:41-45 | the value constructors (copy and move form) hold exactly `v` |
| `Optionals.Optional.Copy` | include/cxxutils/optional.hpp:17-22 | the copy holds what the source holds (empty stays empty) and the source is not changed |
| `Optionals.Optional.CopyAssign` | include/cxxutils/optional.hpp:24-31 | the target gets the source's state, so an empty source empties the target; the source is unchanged (self-assignment included) |
| `Optionals.Optional.Move` | include/cxxutils/optional.hpp:33-34 | the new optional takes the source's old state and the source is left empty |
| `Optionals.Optional.MoveAssign` | include/cxxutils/optional.hpp:36-39 | the target takes the source's old state; a distinct source is left empty, and a self-move keeps the value |
| `Optionals.Optional.HasValue` | include/cxxutils/optional.hpp:48-50 | true exactly when `getValue` returns instead of throwing |
| `Optionals.Optional.GetValue` | include/cxxutils/optional.hpp:52-57 | returns the held value, and throws `MissingOptionalValue` exactly when empty |
| `Optionals.Optional.TakeValue` | include/cxxutils/optional.hpp:59-61 | returns the held value and leaves the optional empty; requires a value |
| `Optionals.EmptyHasNoValue` | include/cxxutils/optional.hpp:15-57 | for a fresh empty optional, `hasValue` is false and `getValue` throws `MissingOptionalValue` |
| `Optionals.OfHoldsValue` | include/cxxutils/optional.hpp:41-57 | for an optional built from `v`, `hasValue` is true and `getValue` returns `v` |
| `Optionals.CopyIsIndependent` | include/cxxutils/optional.hpp:17-22 | draining the source after copying leaves the copy holding the value |
| `Optionals.MoveLeavesOneOwner` | include/cxxutils/optional.hpp:33-39 | after move construction and after move assignment, only the target holds the value |
| `Optionals.CopyAssignFromEmpty` | include/cxxutils/optional.hpp:24-31 | copy assignment from an empty optional empties a populated target |
| `Results.Result.EnsureValid` | include/cxxutils/result.hpp:53-61 | returns exactly on a valid Result; throws the "both" message when both slots are populated and the "neither" message when neither is |
| `Results.Result.IsOK` | include/cxxutils/result.hpp:64-67 | on a valid Result, OK exactly when no error is stored |
| `Results.Result.GetValue` | include/cxxutils/result.hpp:69-73 | returns the stored success value; requires a valid, OK Result |
| `Results.Result.GetValueOrThrow` | include/cxxutils/result.hpp:75-80 | returns the value exactly on success, and on failure throws the stored `ResultException` |
| `Results.Result.TakeValue` | include/cxxutils/result.hpp:86-88 | returns the success value and a drained Result with an empty success slot and the same error slot |
| `Results.Result.GetException` | include/cxxutils/result.hpp:90-93 | returns the stored error exactly on failure; on success throws `MissingOptionalValue` |
| `Results.TranslateError` | include/cxxutils/result.hpp:95-98 | a failure becomes a valid failure of another success type with the same error; a success makes it throw |
| `Results.Result.Map` | include/cxxutils/result.hpp:101-108 | always valid and OK exactly when the input is; a success carries `f(v)`, a failure carries the same error |
| `Results.Result.TakeMap` | include/cxxutils/result.hpp:110-117 | as `map`; on success this Result is left with neither slot, on failure untouched |
| `Results.Result.TakeMapVoid` | include/cxxutils/result.hpp:228-237 | on success runs `f` on the drained value and gives `Result<void>::ok()`; on failure `f` is not run and the error is carried into a `Result<void>` |
| `Results.Result.Flatmap` | include/cxxutils/result.hpp:122-128 | a success gives exactly `f(v)`; a failure gives a valid failure with the same error |
| `Results.Result.FlatmapVoid` | include/cxxutils/result.hpp:122-128 | `flatmap` with a `Result<void>` step: a success gives exactly `f(v)`; a failure gives a `Result<void>` failure with the same error |
| `Results.Result.OnFailure` | include/cxxutils/result.hpp:130-135 | the handler is applied to the error exactly on failure; on success the state is unchanged |
| `Results.Ok` | include/cxxutils/result.hpp:37-43 | `ok(v)` is valid and OK, and `getValue` is `v` |
| `Results.Failed` | include/cxxutils/result.hpp:45-51 | `failed(e)` is valid and not OK, and `getException` returns `e` |
| `Results.VoidResult.IsOK` | include/cxxutils/result.hpp:164-166 | `Result<void>` is OK exactly when `getException` throws, i.e. no error is stored |
| `Results.VoidResult.GetException` | include/cxxutils/result.hpp:168-170 | returns the error if one is stored, otherwise throws `MissingOptionalValue` |
| `Results.VoidResult.Map` | include/cxxutils/result.hpp:177-184 | a success becomes `ok(f())`; a failure becomes a valid failure with the same error |
| `Results.VoidResult.Flatmap` | include/cxxutils/result.hpp:187-193 | a success gives exactly `f()`; a failure gives a valid failure with the same error |
| `Results.VoidResult.FlatmapVoid` | include/cxxutils/result.hpp:187-193 | `Result<void>::flatmap` with a `Result<void>` step: a success gives exactly `f()`; a failure gives a failure with the same error |
| `Results.VoidResult.OnFailure` | include/cxxutils/result.hpp:195-200 | the handler sees the error exactly on failure |
| `Results.VoidOk` | include/cxxutils/result.hpp:152-154 | `Result<void>::ok()` is OK and has no error to return |
| `Results.VoidFailed` | include/cxxutils/result.hpp:156-162 | `Result<void>::failed(e)` is not OK and `getException` returns `e` |
| `Results.TranslateVoidError` | include/cxxutils/result.hpp:172-175 | `Result<void>::translateError`: a failure keeps its error; a success makes it throw |
| `Results.TranslateVoidErrorFromVoid` | include/cxxutils/result.hpp:172-175 | `Result<void>::translateError` from a `Result<void>`: a failure keeps its error; a success makes `getException` throw `MissingOptionalValue` |
| `Results.TranslateErrorFromVoid` | include/cxxutils/result.hpp:95-98 | `Result<T>::translateError` applied to a `Result<void>`: a failure keeps its error; a success makes it throw |
| `Results.MakeResultOk` | include/cxxutils/result.hpp:204-207 | `make_result_ok` is valid and OK, holding the `T` built from the arguments |
| `Results.MakeResultFailed` | include/cxxutils/result.hpp:219-222 | `make_result_failed(args...)` is a valid failure whose error is the `ResultException` built from the arguments |
| `Results.DefaultException` | include/cxxutils/result.hpp:14 | the default `ResultException()` has component "unknown component" and message "Unknown exception" |
| `Results.MakeResultFailedForwards` | include/cxxutils/result.hpp:14-15 | `make_result_failed()` fails with the default record; `make_result_failed(component, mesg)` fails with exactly that record |
| `ResultLaws.ValidIsOkOrFailed` | include/cxxutils/result.hpp:28-51 | every valid Result is `ok(getValue())` or `failed(getException())` |
| `ResultLaws.FactoriesPassEnsureValid` | include/cxxutils/result.hpp:37-61 | `ok` and `failed` pass `ensureValid`; both-populated and neither-populated Results are rejected with their messages |
| `ResultLaws.GetValueOrThrowOfFactories` | include/cxxutils/result.hpp:75-80 | `ok(v)` returns `v` and `failed(e)` throws `e` |
| `ResultLaws.GetValueOrThrowInjective` | include/cxxutils/result.hpp:75-80 | two valid Results with the same `getValueOrThrow` outcome are equal |
| `ResultLaws.TranslateErrorIsFailedOfException` | include/cxxutils/result.hpp:95-98 | `translateError(r)` is exactly `failed(r.getException())` |
| `ResultLaws.MapIdentity` | include/cxxutils/result.hpp:101-108 | mapping the identity changes nothing |
| `ResultLaws.MapComposition` | include/cxxutils/result.hpp:101-108 | `map(f).map(g)` equals `map(g . f)` |
| `ResultLaws.MapOk` | include/cxxutils/result.hpp:101-108 | `ok(v).map(f)` equals `ok(f(v))` |
| `ResultLaws.MapShortCircuits` | include/cxxutils/result.hpp:101-108 | on failure `map(f)` is the translated error and does not depend on `f` |
| `ResultLaws.FlatmapLeftIdentity` | include/cxxutils/result.hpp:122-128 | `ok(v).flatmap(f)` is `f(v)`, whether success or failure |
| `ResultLaws.FlatmapRightIdentity` | include/cxxutils/result.hpp:122-128 | flat-mapping `ok` changes nothing |
| `ResultLaws.FlatmapAssociative` | include/cxxutils/result.hpp:122-128 | chaining `flatmap(f)` then `flatmap(g)` is one `flatmap` of the composed step |
| `ResultLaws.FlatmapShortCircuits` | include/cxxutils/result.hpp:122-128 | on failure `flatmap(f)` is the translated error and does not depend on `f` |
| `ResultLaws.MapIsFlatmapOfOk` | include/cxxutils/result.hpp:101-128 | `map(f)` equals `flatmap` of `ok . f` |
| `ResultLaws.ErrorSurvivesChain` | include/cxxutils/result.hpp:101-128 | a failure's error record comes out of `map` then `flatmap` unchanged |
| `ResultLaws.OnFailureSeesException` | include/cxxutils/result.hpp:130-135 | on failure the handler gets `getException()`; on success nothing happens, whatever the handler |
| `ResultLaws.TakeValueDrains` | include/cxxutils/result.hpp:86-88 | after `takeValue` on a success the Result has neither slot and `ensureValid` rejects it |
| `ResultLaws.TakeMapAgreesWithMap` | include/cxxutils/result.hpp:101-117 | `take_map(f)` produces the same Result as `map(f)` and drains a success |
| `ResultLaws.AsUnitResult` | include/cxxutils/result.hpp:139-166 | reading a `Result<void>` as a `Result<()>` gives a valid Result with the same OK-ness and error |
| `ResultLaws.AsUnitResultRoundTrip` | include/cxxutils/result.hpp:139-166 | that reading is a bijection between `Result<void>` and the valid `Result<()>` |
| `ResultLaws.VoidMapIsUnitMap` | include/cxxutils/result.hpp:177-184 | `Result<void>::map` is `map` on the unit reading |
| `ResultLaws.VoidFlatmapIsUnitFlatmap` | include/cxxutils/result.hpp:187-193 | `Result<void>::flatmap` is `flatmap` on the unit reading |
| `ResultLaws.FlatmapVoidIsUnitFlatmap` | include/cxxutils/result.hpp:122-128 | `flatmap` with a `Result<void>` step is, on the unit reading, `flatmap` to the unit reading of that step |
| `ResultLaws.VoidFlatmapVoidIsUnitFlatmap` | include/cxxutils/result.hpp:187-193 | `Result<void>::flatmap` with a `Result<void>` step is `flatmap` of the unit readings |
| `ResultLaws.TakeMapVoidIsMapToUnit` | include/cxxutils/result.hpp:228-237 | the `Result<void>` of `take_map_void` is the unit reading of `map` to `()` |
| `ResultLaws.MapIncrementScenario` | include/cxxutils/result.hpp:101-108 | `ok(42).map(x => x + 1).getValue()` is 43 |
| `ResultLaws.FailedMapScenario` | include/cxxutils/result.hpp:101-108 | a failed `Result<int>` keeps the message "bad token" through `map` |
| `ResultLaws.VoidScenario` | include/cxxutils/result.hpp:152-166 | `Result<void>::ok()` is OK and `Result<void>::failed(...)` is not |
| `StringComparators.Head` | include/cxxutils/test/StringComparators.hpp:10 | `substr(0, n)` is a prefix of the input, of length `min(n, size)` |
| `StringComparators.Find` | include/cxxutils/test/StringComparators.hpp:26-28 | `find` returns the first index at or after `from` where the needle occurs, and `npos` exactly when there is none |
| `StringComparators.StartsWith` | include/cxxutils/test/StringComparators.hpp:3-15 | accepts exactly the strings with the prefix; the failure text quotes the prefix and the input's first `size(prefix)` characters |
| `StringComparators.Contains` | include/cxxutils/test/StringComparators.hpp:20-32 | accepts exactly the strings where the needle occurs at some index; the failure text quotes the needle and the input |
| `StringComparators.StartsWithEdgeCases` | include/cxxutils/test/StringComparators.hpp:9-11 | an input shorter than the prefix is rejected, and the empty prefix accepts everything |
| `StringComparators.EmptyNeedleIsContained` | include/cxxutils/test/StringComparators.hpp:26-28 | the empty needle is contained in every string |
| `StringComparators.StartsWithImpliesContains` | include/cxxutils/test/StringComparators.hpp:9-28 | a string accepted by `startsWith(p)` is accepted by `contains(p)` |
| `StringComparators.LongNeedleIsNotContained` | include/cxxutils/test/StringComparators.hpp:26-28 | a needle longer than the input is never found |
| `ResultComparators.IsValidResult` | include/cxxutils/test/ResultComparators.hpp:4-19 | accepts exactly the OK Results; a failure is described by quoting its `mesg`; describing a success throws `MissingOptionalValue` |
| `ResultComparators.IsFailedResult` | include/cxxutils/test/ResultComparators.hpp:21-34 | accepts exactly the failed Results, with a fixed failure text |
| `ResultComparators.IsResultWhereValue` | include/cxxutils/test/ResultComparators.hpp:36-59 | accepts exactly the OK Results whose value the inner comparator accepts; a failure is described by its `mesg`, a success by the prefixed inner description |
| `ResultComparators.FailedIsComplementOfValid` | include/cxxutils/test/ResultComparators.hpp:4-34 | the failed comparator accepts exactly what the valid comparator rejects |
| `ResultComparators.ResultWhereValueNeedsSuccess` | include/cxxutils/test/ResultComparators.hpp:41-43 | no failed Result satisfies it, and whatever satisfies it is a valid result |
| `ResultComparators.ResultWhereValueOfOk` | include/cxxutils/test/ResultComparators.hpp:41-43 | on `ok(v)` it decides exactly as the inner comparator decides on `v` |
| `ResultComparators.ValidAndFailedOnVoid` | include/cxxutils/test/ResultComparators.hpp:4-34 | on a `Result<void>` (its unit reading) `isValidResult` accepts exactly the OK ones, `isFailedResult` the others, and the failure text quotes the stored message |
| `TestUtils.RenderBool` | include/cxxutils/test/testutils.hpp:28-33 | a bool is written as "true" exactly when it is true, and as "false" otherwise |
| `TestUtils.VectorText` | include/cxxutils/test/testutils.hpp:36-44 | a rendered vector is enclosed in braces; the empty vector renders as "{}" |
| `TestUtils.ElementsTextAppend` | include/cxxutils/test/testutils.hpp:36-44 | rendering the elements of `a + b` is rendering `a`, then `b` |
| `TestUtils.RenderVector` | include/cxxutils/test/testutils.hpp:36-44 | the element-by-element writer produces exactly the braces-and-commas rendering |
| `TestUtils.DigitChar` | include/cxxutils/test/testutils.hpp:371 | a digit value is written as a character from '0' to '9' |
| `TestUtils.NatText` | include/cxxutils/test/testutils.hpp:371 | a natural number is written as a non-empty string of decimal digits, with no leading zero |
| `TestUtils.IntText` | include/cxxutils/test/testutils.hpp:371 | an int is written with a leading minus sign exactly when it is negative |
| `TestUtils.NatTextRoundTrip` | include/cxxutils/test/testutils.hpp:371 | the decimal text of `n` reads back as `n` |
| `TestUtils.IntTextRoundTrip` | include/cxxutils/test/testutils.hpp:371 | the text of an int reads back as that int, sign included |
| `TestUtils.Is` | include/cxxutils/test/testutils.hpp:70-92 | accepts exactly the values equal to the expected one; the failure text is "expected : " and "actual   : " on two lines |
| `TestUtils.IsNull` | include/cxxutils/test/testutils.hpp:158-187 | accepts exactly the null pointer; the failure text shows the pointer |
| `TestUtils.IsNotNull` | include/cxxutils/test/testutils.hpp:189-228 | accepts exactly the non-null pointers, with a fixed failure text |
| `TestUtils.NullIsComplementOfNotNull` | include/cxxutils/test/testutils.hpp:158-207 | the null comparator accepts exactly what the not-null comparator rejects |
| `TestUtils.ContainerHas` | include/cxxutils/test/testutils.hpp:235-243 | the scan with early return answers true exactly when some element equals the value, which is what `contains(value)` accepts; an empty container gives false |
| `TestUtils.ContainsElement` | include/cxxutils/test/testutils.hpp:231-257 | accepts exactly the containers holding the value, and never the empty one; the failure text shows the value and the container |
| `TestUtils.And` | include/cxxutils/test/testutils.hpp:284-308 | accepts exactly what both accept; describes with the first comparator's text when it rejects, otherwise the second's |
| `TestUtils.AndOkLaws` | include/cxxutils/test/testutils.hpp:292-296 | `and_` is commutative, associative and idempotent in what it accepts |
| `TestUtils.AndDescribesARejecter` | include/cxxutils/test/testutils.hpp:298-306 | when `and_` rejects, its failure text is that of a component that rejects |
| `TestUtils.FailureHeader` | include/cxxutils/test/testutils.hpp:370-371 | a failure message starts with the file name and a colon |
| `TestUtils.AssertThatImpl` | include/cxxutils/test/testutils.hpp:358-375 | returns exactly when the comparator accepts; otherwise throws `AssertionFailedException` with the header, the two expressions and the failure text, or lets the failure text's own exception escape |
| `TestUtils.FailImpl` | include/cxxutils/test/testutils.hpp:377-385 | always throws `AssertionFailedException` with the header and the message |
| `TestUtils.AssertThatThrowsOnlyAssertionFailures` | include/cxxutils/test/testutils.hpp:358-375 | when the comparator can describe every value it rejects, only `AssertionFailedException` escapes, and its message ends with the failure text |

## Left out

- include/cxxutils/test/cmark_test_utils.hpp is not part of this model. It depends on `std::regex`, the external cmark and mdx libraries, and on freeing C buffers.
- cxx14shims.hpp, `make_result_unique_ok` and `make_result_shared_ok` (result.hpp:209-217) are thin wrappers over heap allocation. Heap ownership is modelled only as "a value is present".
- `TypeComparator` (testutils.hpp:118-156) needs RTTI: `dynamic_cast` and `typeid(...).name()`.
- The gtest glue is not modelled: `WrappedCondition`, `wrapCondition`, the `assertThat` macro and `testing::AssertionResult` (testutils.hpp:321-356).
- Generic streaming is not modelled: `TestIOHelper<T>::output`, `IOWrapper` and `wrap` (testutils.hpp:14-61). Only the `bool` and vector cases are defined; every other type is rendered by a parameter function.
- `ValueComparator<char[N]>` (testutils.hpp:94-116) compares raw pointers, which is pointer identity.
- `Result<T>::takeValuePtr` (result.hpp:82-84) returns an `optional<T>` as a `unique_ptr<T>&&`, so it does not compile once instantiated.
- The `ResultException` copy and move constructors are not modelled: the record is a value. The move constructor leaves its source with empty strings, and that is not modelled.
- Allocation failure (`std::bad_alloc` from `new T`) in the optional constructors is not modelled.
- A `Result` is a value in this model. Its in-place drain is modelled by returning the drained `Result` beside the payload. Aliasing of one `Result` through several references is not modelled.
- `Results.Result.TakeMap` and `Results.Result.TakeMapVoid` give back the drained `Result` as an extra component instead of changing their receiver in place.
- `Optionals.Optional.CopyAssign` resets the target to empty when the source is empty. The source calls `value.clear()` (optional.hpp:28), which `unique_ptr` does not have, so that line does not compile; resetting is the evident intent.
- `Optionals.Optional.TakeValue` requires a value, because dereferencing the released null pointer is undefined. The source's `release()` never frees the object it hands out, and that leak is not modelled.
- `Results.Result.TakeValue` requires only a populated success slot. Unlike the other accessors, the source does not call `ensureValid` here.
- `Results.Result.IsOK`, `Results.Result.GetValue`, `Results.Result.GetValueOrThrow`, `Results.Result.GetException` and the combinators require `Valid()`, instead of modelling the `runtime_error` that `ensureValid` throws on an invalid Result. `Results.Result.EnsureValid` models that throw and its messages.
- `Results.Result.GetValue` requires an OK Result, because the source guards it with `assert` (result.hpp:71).
- `ResultComparators.IsValidResult`, `ResultComparators.IsFailedResult` and `ResultComparators.IsResultWhereValue` are defined only on valid Results, because `isOK` rejects any other.
- `TestUtils.Is` compares values of one type. The source's `ok(const U&)` also compares across types through `operator==`.
- `Results.Result.Map`, `Results.Result.Flatmap`, `Results.Result.FlatmapVoid`, `Results.Result.TakeMap`, `Results.VoidResult.Map`, `Results.VoidResult.Flatmap` and `Results.VoidResult.FlatmapVoid`: the transform is a pure function. Its side effects and the exceptions it throws on success are not modelled. "`f` is not called on failure" is stated only as "the result does not depend on `f`" (`ResultLaws.MapShortCircuits`, `ResultLaws.FlatmapShortCircuits`). Only `take_map_void` and `on_failure` thread a state for their function's effects.
- The transform passed to `take_map_void` and the handler passed to `on_failure` have side effects. These are modelled as a state that the function transforms. Exceptions thrown by these user functions are not modelled.

## Notes on the source

- `optional::getValue` throws `MissingOptionalValue`. So `Result<T>::getException` on a success, and `translateError` applied to a success, throw `MissingOptionalValue`. Neither is only a precondition violation. The model follows the code.
- `Result<void>::isOK` and `getException` do not call `ensureValid`. `Result<void>` has one slot only and so has no invalid state.
- `ValidResultComparator::describe_failure` on an OK Result throws `MissingOptionalValue`, because it calls `getException`. `assertThatImpl` asks for a failure text only for values the comparator rejects. `Comparators.Describable` states that a comparator's failure text never throws for a value it rejects. Every comparator here is `Describable`, `and_` and `isResultWhereValue` keep that property, and `TestUtils.AssertThatThrowsOnlyAssertionFailures` proves that nothing else escapes in that case.
- `describe_failure` of `StringStartsWithComparator` and `StringContainsComparator` is not `const` (include/cxxutils/test/StringComparators.hpp:13, 30). So neither can be described through a `const` reference: not by `assertThatImpl` (testutils.hpp:366, 373), not inside the `const` `AndComparator::describe_failure` (testutils.hpp:300), and not as the inner comparator of `ResultWithComparator` (ResultComparators.hpp:47-52). In the model, `StringComparators.StartsWith` and `StringComparators.Contains` are ordinary comparators. A term such as `And(StartsWith(p), c)` therefore stands for C++ that does not compile as written.
