/** Laws the combinators of `Result<T>` and `Result<void>` satisfy: what the
    factories build, the functor and monad laws of `map` and `flatmap`, the
    short-circuit on failure, and the draining "take" operations. */
module ResultLaws {
  import opened Wrappers
  import opened Results

  // ----- construction ---------------------------------------------------

  /** Every valid `Result` is one the factories could have built. */
  lemma ValidIsOkOrFailed<T>(r: Result<T>)
    requires r.Valid()
    ensures r.IsOK() ==> r == Ok(r.GetValue())
    ensures !r.IsOK() ==> r == Failed(r.GetException().result)
  {
  }

  /** The factories never build an invalid `Result`, and `ensureValid`
      rejects exactly the both-populated and neither-populated ones. */
  lemma FactoriesPassEnsureValid<T>(v: T, e: ResultException)
    ensures Ok(v).EnsureValid() == Returns(())
    ensures Failed<T>(e).EnsureValid() == Returns(())
    ensures Result(Some(v), Some(e)).EnsureValid() == Throws(InvalidResult(BothPopulated))
    ensures Result<T>.Result(None, None).EnsureValid() == Throws(InvalidResult(NeitherPopulated))
  {
  }

  /** `getValueOrThrow` turns `ok(v)` into a return of `v` and `failed(e)`
      into a throw of `e`. */
  lemma GetValueOrThrowOfFactories<T>(v: T, e: ResultException)
    ensures Ok(v).GetValueOrThrow() == Returns(v)
    ensures Failed<T>(e).GetValueOrThrow() == Throws(e)
  {
  }

  /** `getValueOrThrow` loses nothing: two valid `Result`s with the same
      outcome are the same `Result`. */
  lemma GetValueOrThrowInjective<T>(r1: Result<T>, r2: Result<T>)
    requires r1.Valid() && r2.Valid()
    requires r1.GetValueOrThrow() == r2.GetValueOrThrow()
    ensures r1 == r2
  {
  }

  /** `translateError(r)` is exactly `failed(r.getException())`. */
  lemma TranslateErrorIsFailedOfException<T, U>(r: Result<U>)
    requires r.Valid() && !r.IsOK()
    ensures TranslateError<T, U>(r) == Returns(Failed(r.GetException().result))
  {
  }

  // ----- map --------------------------------------------------------------

  /** Functor identity: mapping the identity changes nothing. */
  lemma MapIdentity<T>(r: Result<T>)
    requires r.Valid()
    ensures r.Map(x => x) == r
  {
  }

  /** Functor composition: mapping `f` then `g` is mapping `g . f`. */
  lemma MapComposition<T, U, W>(r: Result<T>, f: T -> U, g: U -> W)
    requires r.Valid()
    ensures r.Map(f).Map(g) == r.Map(x => g(f(x)))
  {
  }

  /** `map` on `ok(v)` is `ok(f(v))`. */
  lemma MapOk<T, U>(v: T, f: T -> U)
    ensures Ok(v).Map(f) == Ok(f(v))
  {
  }

  /** Short-circuit: on a failure `map` is the translated error, whatever
      the function. */
  lemma MapShortCircuits<T, U>(r: Result<T>, f: T -> U, g: T -> U)
    requires r.Valid() && !r.IsOK()
    ensures r.Map(f) == TranslateError<U, T>(r).result
    ensures r.Map(f) == r.Map(g)
  {
  }

  // ----- flatmap ----------------------------------------------------------

  /** Left identity: `ok(v).flatmap(f)` is `f(v)`, success or failure. */
  lemma FlatmapLeftIdentity<T, U>(v: T, f: T -> Result<U>)
    ensures Ok(v).Flatmap(f) == f(v)
  {
  }

  /** Right identity: flat-mapping `ok` changes nothing. */
  lemma FlatmapRightIdentity<T>(r: Result<T>)
    requires r.Valid()
    ensures r.Flatmap(x => Ok(x)) == r
  {
  }

  /** Associativity of chaining, for a first step `f` that only builds valid
      `Result`s: `flatmap(f)` then `flatmap(g)` is one `flatmap` of the
      composed step `h`, which is `x => f(x).flatmap(g)`. */
  lemma FlatmapAssociative<T, U, W>(r: Result<T>, f: T -> Result<U>, g: U -> Result<W>, h: T -> Result<W>)
    requires r.Valid()
    requires forall x :: f(x).Valid() && h(x) == f(x).Flatmap(g)
    ensures r.Flatmap(f).Valid()
    ensures r.Flatmap(f).Flatmap(g) == r.Flatmap(h)
  {
  }

  /** Short-circuit: on a failure `flatmap` is the translated error and does
      not depend on the function. */
  lemma FlatmapShortCircuits<T, U>(r: Result<T>, f: T -> Result<U>, g: T -> Result<U>)
    requires r.Valid() && !r.IsOK()
    ensures r.Flatmap(f) == TranslateError<U, T>(r).result
    ensures r.Flatmap(f) == r.Flatmap(g)
  {
  }

  /** `map(f)` is `flatmap` of `ok . f`. */
  lemma MapIsFlatmapOfOk<T, U>(r: Result<T>, f: T -> U)
    requires r.Valid()
    ensures r.Map(f) == r.Flatmap(x => Ok(f(x)))
  {
  }

  /** The error record survives any chain of `map` and `flatmap` unchanged. */
  lemma ErrorSurvivesChain<T, U, W>(r: Result<T>, f: T -> U, g: U -> Result<W>)
    requires r.Valid() && !r.IsOK()
    ensures r.Map(f).Flatmap(g).GetException() == r.GetException()
  {
  }

  // ----- on_failure -------------------------------------------------------

  /** `on_failure(h)` runs `h` on exactly the error `getException` returns,
      and is a no-op on success whatever the handler. */
  lemma OnFailureSeesException<T, S>(r: Result<T>, h: (S, ResultException) -> S, k: (S, ResultException) -> S, s: S)
    requires r.Valid()
    ensures !r.IsOK() ==> r.OnFailure(h, s) == h(s, r.GetException().result)
    ensures r.IsOK() ==> r.OnFailure(h, s) == r.OnFailure(k, s) == s
  {
  }

  // ----- take -------------------------------------------------------------

  /** After `takeValue` a success has neither slot populated: it fails
      `ensureValid` and can no longer give up a value. */
  lemma TakeValueDrains<T>(r: Result<T>)
    requires r.Valid() && r.IsOK()
    ensures r.TakeValue().0 == r.GetValue()
    ensures !r.TakeValue().1.Valid()
    ensures r.TakeValue().1.EnsureValid() == Throws(InvalidResult(NeitherPopulated))
  {
  }

  /** `take_map` produces the same `Result` as `map`; it differs only in
      leaving this one drained. */
  lemma TakeMapAgreesWithMap<T, U>(r: Result<T>, f: T -> U)
    requires r.Valid()
    ensures r.TakeMap(f).0 == r.Map(f)
    ensures r.IsOK() ==> !r.TakeMap(f).1.Valid()
  {
  }

  // ----- Result<void> as the unit case of Result<T> ---------------------

  /** `Result<void>` read as a `Result<()>` whose success payload is `()`. */
  function AsUnitResult(v: VoidResult): (r: Result<()>)
    ensures r.Valid() && (r.IsOK() <==> v.IsOK())
    ensures r.exception == v.exception
  {
    Result(if v.IsOK() then Some(()) else None, v.exception)
  }

  /** The unit reading loses nothing: it is inverted by keeping the error slot. */
  lemma AsUnitResultRoundTrip(v: VoidResult, r: Result<()>)
    requires r.Valid()
    ensures VoidResult(AsUnitResult(v).exception) == v
    ensures AsUnitResult(VoidResult(r.exception)) == r
  {
    if r.IsOK() {
      assert r.value.value == ();
    }
  }

  /** `Result<void>::map` is `map` of the unit reading. */
  lemma VoidMapIsUnitMap<U>(v: VoidResult, f: () -> U)
    ensures v.Map(f) == AsUnitResult(v).Map(_ => f())
  {
  }

  /** `Result<void>::flatmap` is `flatmap` of the unit reading. */
  lemma VoidFlatmapIsUnitFlatmap<U>(v: VoidResult, f: () -> Result<U>)
    ensures v.Flatmap(f) == AsUnitResult(v).Flatmap(_ => f())
  {
  }

  /** `flatmap` with a `Result<void>` step is `flatmap` to the unit
      reading of that step. */
  lemma FlatmapVoidIsUnitFlatmap<T>(r: Result<T>, f: T -> VoidResult)
    requires r.Valid()
    ensures AsUnitResult(r.FlatmapVoid(f)) == r.Flatmap(x => AsUnitResult(f(x)))
  {
  }

  /** `Result<void>::flatmap` with a `Result<void>` step is `flatmap` of the
      unit readings. */
  lemma VoidFlatmapVoidIsUnitFlatmap(v: VoidResult, f: () -> VoidResult)
    ensures AsUnitResult(v.FlatmapVoid(f)) == AsUnitResult(v).Flatmap(_ => AsUnitResult(f()))
  {
  }

  /** `take_map_void` yields the unit reading of `map` to `()`, and on
      success runs `f` on the value it drains. */
  lemma TakeMapVoidIsMapToUnit<T, S>(r: Result<T>, f: (S, T) -> S, s: S)
    requires r.Valid()
    ensures AsUnitResult(r.TakeMapVoid(f, s).0) == r.Map(_ => ())
  {
  }

  // ----- scenarios ----------------------------------------------------------

  /** `Result<int>::ok(42).map(x => x + 1).getValue() == 43`. */
  lemma MapIncrementScenario()
    ensures Ok(42).Map((x: int) => x + 1).GetValue() == 43
  {
  }

  /** A failed parse keeps its message through `map`. */
  lemma FailedMapScenario()
    ensures Failed<int>(ResultException("parser", "bad token")).Map((x: int) => x + 1).GetException().result.mesg == "bad token"
  {
  }

  /** `Result<void>::ok()` is OK and `Result<void>::failed(...)` is not. */
  lemma VoidScenario()
    ensures VoidOk().IsOK()
    ensures !VoidFailed(ResultException("io", "disk full")).IsOK()
  {
  }
}
