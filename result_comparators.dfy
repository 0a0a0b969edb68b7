/** `ValidResultComparator`, `FailedResultComparator`, `ResultWithComparator`
    and their factories from include/cxxutils/test/ResultComparators.hpp.
    They inspect a `Result` only through `isOK`, `getValue` and
    `getException`, so they are defined on the `Result`s `ensureValid` accepts. */
module ResultComparators {
  import opened Wrappers
  import opened Optionals
  import opened Results
  import opened Comparators
  import opened ResultLaws

  /** `isValidResult()`: accepts exactly the successes. Its failure text
      quotes the error's message; asked about a success, `getException`
      throws `MissingOptionalValue`. */
  function IsValidResult<T(!new)>(): (c: Comparator<ValidResult<T>>)
    ensures forall r: ValidResult<T> :: c.ok(r) <==> r.IsOK()
    ensures forall r: ValidResult<T> :: !r.IsOK() ==>
      c.describeFailure(r) == Returns("expected valid result but got failed with '" + r.exception.value.mesg + "'")
    ensures forall r: ValidResult<T> :: r.IsOK() ==> c.describeFailure(r) == Throws(MissingOptionalValue)
    ensures Describable(c)
  {
    Comparator(
      (r: ValidResult<T>) => r.IsOK(),
      (r: ValidResult<T>) =>
        match r.GetException()
        case Returns(e) => Returns("expected valid result but got failed with '" + e.mesg + "'")
        case Throws(m) => Throws(m))
  }

  /** `isFailedResult()`: accepts exactly the failures, with a fixed failure text. */
  function IsFailedResult<T(!new)>(): (c: Comparator<ValidResult<T>>)
    ensures forall r: ValidResult<T> :: c.ok(r) <==> !r.IsOK()
    ensures forall r: ValidResult<T> :: c.describeFailure(r) == Returns("expected failed result but got ok result")
    ensures Describable(c)
  {
    Comparator(
      (r: ValidResult<T>) => !r.IsOK(),
      (r: ValidResult<T>) => Returns("expected failed result but got ok result"))
  }

  /** `isResultWhereValue(inner)`: accepts a success whose value `inner`
      accepts. A failure is described by its message; a success by the
      inner comparator's description behind a fixed prefix. */
  function IsResultWhereValue<T(!new)>(inner: Comparator<T>): (c: Comparator<ValidResult<T>>)
    ensures forall r: ValidResult<T> :: c.ok(r) <==> r.IsOK() && inner.ok(r.GetValue())
    ensures forall r: ValidResult<T> :: !r.IsOK() ==>
      c.describeFailure(r) == Returns("expected valid result but got failed result with '" + r.GetException().result.mesg + "'")
    ensures forall r: ValidResult<T> :: r.IsOK() && inner.describeFailure(r.GetValue()).Returns? ==>
      c.describeFailure(r) == Returns("Expected Result with value satisfying : " + inner.describeFailure(r.GetValue()).result)
    ensures forall r: ValidResult<T> :: r.IsOK() && inner.describeFailure(r.GetValue()).Throws? ==>
      c.describeFailure(r) == inner.describeFailure(r.GetValue())
    ensures Describable(inner) ==> Describable(c)
  {
    Comparator(
      (r: ValidResult<T>) => r.IsOK() && inner.ok(r.GetValue()),
      (r: ValidResult<T>) =>
        if !r.IsOK() then
          Returns("expected valid result but got failed result with '" + r.GetException().result.mesg + "'")
        else
          match inner.describeFailure(r.GetValue())
          case Returns(d) => Returns("Expected Result with value satisfying : " + d)
          case Throws(m) => Throws(m))
  }

  /** The failed comparator is the exact complement of the valid one. */
  lemma FailedIsComplementOfValid<T(!new)>(r: ValidResult<T>)
    ensures IsFailedResult<T>().ok(r) == !IsValidResult<T>().ok(r)
  {
  }

  /** A failed `Result` satisfies no `isResultWhereValue` comparator, and
      whatever satisfies one is a valid (successful) result. */
  lemma ResultWhereValueNeedsSuccess<T(!new)>(inner: Comparator<T>, r: ValidResult<T>)
    ensures !r.IsOK() ==> !IsResultWhereValue(inner).ok(r)
    ensures IsResultWhereValue(inner).ok(r) ==> IsValidResult<T>().ok(r)
  {
  }

  /** On `ok(v)` the comparator defers to `inner` on `v`. */
  lemma ResultWhereValueOfOk<T(!new)>(inner: Comparator<T>, v: T)
    ensures IsResultWhereValue(inner).ok(Ok(v)) == inner.ok(v)
  {
  }

  /** `isValidResult()` and `isFailedResult()` also take a `Result<void>`:
      on its unit reading they decide by `isOK`, and the failure text quotes
      the stored message. */
  lemma ValidAndFailedOnVoid(v: VoidResult)
    ensures IsValidResult<()>().ok(AsUnitResult(v)) <==> v.IsOK()
    ensures IsFailedResult<()>().ok(AsUnitResult(v)) <==> !v.IsOK()
    ensures !v.IsOK() ==>
      IsValidResult<()>().describeFailure(AsUnitResult(v)) == Returns("expected valid result but got failed with '" + v.exception.value.mesg + "'")
  {
  }
}
