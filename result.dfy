/** `ResultException`, `Result<T>` and `Result<void>` from
    include/cxxutils/result.hpp. A `Result` is two optional slots, a success
    value and an error record, of which exactly one is populated. */
module Results {
  import opened Wrappers
  import opened Optionals

  /** The flat error record: where the failure arose and what it was. */
  datatype ResultException = ResultException(component: string, mesg: string)

  /** What the default constructor `ResultException()` fills in. */
  const DefaultComponent: string := "unknown component"
  const DefaultMesg: string := "Unknown exception"

  /** The `std::runtime_error` that `ensureValid` throws. */
  datatype InvalidResult = InvalidResult(what: string)

  const BothPopulated: string := "Invalid Result: Result has both value and exception"
  const NeitherPopulated: string := "Invalid Result: Result has neither value or exception"

  /** `Result<T>`: the private two-slot representation. The factories below
      are the only intended way to build one; `Valid` is the invariant that
      `ensureValid` checks. */
  datatype Result<T> = Result(value: Option<T>, exception: Option<ResultException>) {

    /** Exactly one slot is populated. */
    predicate Valid() {
      value.Some? != exception.Some?
    }

    /** `ensureValid`: returns when exactly one slot is populated and
        otherwise throws, with a message naming which way it is broken. */
    function EnsureValid(): (r: Outcome<(), InvalidResult>)
      ensures r.Returns? <==> Valid()
      ensures value.Some? && exception.Some? ==> r == Throws(InvalidResult(BothPopulated))
      ensures value.None? && exception.None? ==> r == Throws(InvalidResult(NeitherPopulated))
    {
      if value.Some? && exception.Some? then Throws(InvalidResult(BothPopulated))
      else if value.None? && exception.None? then Throws(InvalidResult(NeitherPopulated))
      else Returns(())
    }

    /** `isOK`: the success slot is the populated one. */
    function IsOK(): (b: bool)
      requires Valid()
      ensures b <==> exception.None?
    {
      value.Some?
    }

    /** `getValue`: the success value; only defined on a success. */
    function GetValue(): (v: T)
      requires Valid() && IsOK()
      ensures value == Some(v)
    {
      value.value
    }

    /** `getValueOrThrow`: the value on success, the stored error thrown on failure. */
    function GetValueOrThrow(): (r: Outcome<T, ResultException>)
      requires Valid()
      ensures r.Returns? <==> IsOK()
      ensures r.Returns? ==> value == Some(r.result)
      ensures r.Throws? ==> exception == Some(r.error)
    {
      if IsOK() then Returns(GetValue()) else Throws(exception.value)
    }

    /** `takeValue`: moves the success value out. The source does not call
        `ensureValid` here; it needs only a populated success slot. The
        second component is the drained `Result`, whose success slot is empty. */
    function TakeValue(): (out: (T, Result<T>))
      requires value.Some?
      ensures value == Some(out.0)
      ensures out.1.value == None && out.1.exception == exception
    {
      (value.value, Result(None, exception))
    }

    /** `getException`: the error record on failure; on a success the empty
        optional's `getValue` throws `MissingOptionalValue`. */
    function GetException(): (r: Outcome<ResultException, MissingOptionalValue>)
      requires Valid()
      ensures r.Returns? <==> !IsOK()
      ensures r.Returns? ==> exception == Some(r.result)
      ensures r.Throws? ==> r.error == MissingOptionalValue
    {
      match exception
      case Some(e) => Returns(e)
      case None => Throws(MissingOptionalValue)
    }

    /** `map(f)`: a success becomes `ok(f(v))`; a failure is re-wrapped by
        `translateError` and `f` plays no part. */
    function Map<U>(f: T -> U): (r: Result<U>)
      requires Valid()
      ensures r.Valid() && (r.IsOK() <==> IsOK())
      ensures IsOK() ==> r.GetValue() == f(GetValue())
      ensures !IsOK() ==> r.exception == exception
    {
      if IsOK() then Ok(f(GetValue())) else TranslateError<U, T>(this).result
    }

    /** `take_map(f)`: as `map`, but the value is moved into `f`. The second
        component is this `Result` afterwards: drained on success, untouched
        on failure. */
    function TakeMap<U>(f: T -> U): (out: (Result<U>, Result<T>))
      requires Valid()
      ensures out.0.Valid() && (out.0.IsOK() <==> IsOK())
      ensures IsOK() ==> out.0.GetValue() == f(GetValue()) && out.1 == Result(None, None)
      ensures !IsOK() ==> out.0.exception == exception && out.1 == this
    {
      if IsOK() then
        var (v, drained) := TakeValue();
        (Ok(f(v)), drained)
      else
        (TranslateError<U, T>(this).result, this)
    }

    /** `take_map_void(f)`: on success the value is moved into the
        side-effecting `f` (its effect is the state `S` it transforms) and
        the answer is `Result<void>::ok()`; on failure `f` is not called and
        the error is carried into a `Result<void>`. */
    function TakeMapVoid<S>(f: (S, T) -> S, s: S): (out: (VoidResult, Result<T>, S))
      requires Valid()
      ensures out.0.IsOK() <==> IsOK()
      ensures IsOK() ==> out.2 == f(s, GetValue()) && out.1 == Result(None, None)
      ensures !IsOK() ==> out.0.exception == exception && out.1 == this && out.2 == s
    {
      if IsOK() then
        var (v, drained) := TakeValue();
        (VoidOk(), drained, f(s, v))
      else
        (TranslateVoidError(this).result, this, s)
    }

    /** `flatmap(f)`: a success is replaced by whatever `f(v)` is, success or
        failure; a failure short-circuits to the translated error. */
    function Flatmap<U>(f: T -> Result<U>): (r: Result<U>)
      requires Valid()
      ensures IsOK() ==> r == f(GetValue())
      ensures !IsOK() ==> r.Valid() && !r.IsOK() && r.exception == exception
    {
      if IsOK() then f(GetValue()) else TranslateError<U, T>(this).result
    }

    /** `flatmap(f)` with a step returning `Result<void>`: a success is
        replaced by `f(v)`; a failure short-circuits to a `Result<void>`
        carrying the same error. */
    function FlatmapVoid(f: T -> VoidResult): (r: VoidResult)
      requires Valid()
      ensures IsOK() ==> r == f(GetValue())
      ensures !IsOK() ==> !r.IsOK() && r.exception == exception
    {
      if IsOK() then f(GetValue()) else TranslateVoidError(this).result
    }

    /** `on_failure(h)`: the handler's effect is the state `S` it transforms;
        it is applied to the error exactly when this `Result` is a failure. */
    function OnFailure<S>(h: (S, ResultException) -> S, s: S): (s': S)
      requires Valid()
      ensures !IsOK() ==> s' == h(s, exception.value)
      ensures IsOK() ==> s' == s
    {
      if !IsOK() then h(s, GetException().result) else s
    }
  }

  /** The `Result`s that `ensureValid` accepts. */
  type ValidResult<T> = r: Result<T> | r.Valid() witness Result(None, Some(ResultException(DefaultComponent, DefaultMesg)))

  /** `Result<T>::ok`, by copy or by move. */
  function Ok<T>(v: T): (r: Result<T>)
    ensures r.Valid() && r.IsOK() && r.GetValue() == v
  {
    Result(Some(v), None)
  }

  /** `Result<T>::failed`, by copy or by move. */
  function Failed<T>(e: ResultException): (r: Result<T>)
    ensures r.Valid() && !r.IsOK() && r.GetException() == Returns(e)
  {
    Result(None, Some(e))
  }

  /** `Result<T>::translateError(u)`, which is `failed(u.getException())`: a
      failure of another success type is re-wrapped; on a success `u`,
      `getException` throws and so does this. */
  function TranslateError<T, U>(u: Result<U>): (r: Outcome<Result<T>, MissingOptionalValue>)
    requires u.Valid()
    ensures r.Returns? <==> !u.IsOK()
    ensures r.Returns? ==> r.result.Valid() && !r.result.IsOK() && r.result.exception == u.exception
  {
    match u.GetException()
    case Returns(e) => Returns(Failed(e))
    case Throws(m) => Throws(m)
  }

  /** `Result<void>`: only the error slot; it is a success when that slot is
      empty, so it has no invalid state. */
  datatype VoidResult = VoidResult(exception: Option<ResultException>) {

    /** `isOK`: no error is stored. Unlike `Result<T>`, no `ensureValid`. */
    function IsOK(): (b: bool)
      ensures b <==> GetException().Throws?
    {
      exception.None?
    }

    /** `getException`: the error, or `MissingOptionalValue` on success. */
    function GetException(): (r: Outcome<ResultException, MissingOptionalValue>)
      ensures r.Returns? <==> exception.Some?
      ensures r.Returns? ==> exception == Some(r.result)
      ensures r.Throws? ==> r.error == MissingOptionalValue
    {
      match exception
      case Some(e) => Returns(e)
      case None => Throws(MissingOptionalValue)
    }

    /** `map(f)` with a nullary `f`: success becomes `ok(f())`. */
    function Map<U>(f: () -> U): (r: Result<U>)
      ensures r.Valid() && (r.IsOK() <==> IsOK())
      ensures IsOK() ==> r.GetValue() == f()
      ensures !IsOK() ==> r.exception == exception
    {
      if IsOK() then Ok(f()) else TranslateErrorFromVoid<U>(this).result
    }

    /** `flatmap(f)` with a nullary `f`: success is replaced by `f()`. */
    function Flatmap<U>(f: () -> Result<U>): (r: Result<U>)
      ensures IsOK() ==> r == f()
      ensures !IsOK() ==> r.Valid() && !r.IsOK() && r.exception == exception
    {
      if IsOK() then f() else TranslateErrorFromVoid<U>(this).result
    }

    /** `flatmap(f)` with a nullary step returning `Result<void>`: success
        is replaced by `f()`; a failure comes back as the same failure. */
    function FlatmapVoid(f: () -> VoidResult): (r: VoidResult)
      ensures IsOK() ==> r == f()
      ensures !IsOK() ==> !r.IsOK() && r.exception == exception
    {
      if IsOK() then f() else TranslateVoidErrorFromVoid(this).result
    }

    /** `on_failure(h)`: `h` sees the error exactly when this is a failure. */
    function OnFailure<S>(h: (S, ResultException) -> S, s: S): (s': S)
      ensures !IsOK() ==> s' == h(s, exception.value)
      ensures IsOK() ==> s' == s
    {
      if !IsOK() then h(s, GetException().result) else s
    }
  }

  /** `Result<void>::ok()`. */
  function VoidOk(): (r: VoidResult)
    ensures r.IsOK() && r.GetException() == Throws(MissingOptionalValue)
  {
    VoidResult(None)
  }

  /** `Result<void>::failed(e)`. */
  function VoidFailed(e: ResultException): (r: VoidResult)
    ensures !r.IsOK() && r.GetException() == Returns(e)
  {
    VoidResult(Some(e))
  }

  /** `Result<void>::translateError(u)` from a `Result<U>`. */
  function TranslateVoidError<U>(u: Result<U>): (r: Outcome<VoidResult, MissingOptionalValue>)
    requires u.Valid()
    ensures r.Returns? <==> !u.IsOK()
    ensures r.Returns? ==> !r.result.IsOK() && r.result.exception == u.exception
  {
    match u.GetException()
    case Returns(e) => Returns(VoidFailed(e))
    case Throws(m) => Throws(m)
  }

  /** `Result<void>::translateError(u)` from a `Result<void>`. */
  function TranslateVoidErrorFromVoid(u: VoidResult): (r: Outcome<VoidResult, MissingOptionalValue>)
    ensures r.Returns? <==> !u.IsOK()
    ensures r.Returns? ==> !r.result.IsOK() && r.result.exception == u.exception
    ensures r.Throws? ==> r.error == MissingOptionalValue
  {
    match u.GetException()
    case Returns(e) => Returns(VoidFailed(e))
    case Throws(m) => Throws(m)
  }

  /** `Result<T>::translateError(u)` from a `Result<void>`. */
  function TranslateErrorFromVoid<T>(u: VoidResult): (r: Outcome<Result<T>, MissingOptionalValue>)
    ensures r.Returns? <==> !u.IsOK()
    ensures r.Returns? ==> r.result.Valid() && !r.result.IsOK() && r.result.exception == u.exception
  {
    match u.GetException()
    case Returns(e) => Returns(Failed(e))
    case Throws(m) => Throws(m)
  }

  /** `make_result_ok<T>(args...)`: `ok` of the `T` built from `args`. */
  function MakeResultOk<A, T>(construct: A -> T, args: A): (r: Result<T>)
    ensures r.Valid() && r.IsOK() && r.GetValue() == construct(args)
  {
    Ok(construct(args))
  }

  /** `make_result_failed<T>(args...)`: `failed` of the `ResultException`
      built from `args`, by whichever constructor `construct` stands for. */
  function MakeResultFailed<A, T>(construct: A -> ResultException, args: A): (r: Result<T>)
    ensures r.Valid() && !r.IsOK()
    ensures r.GetException() == Returns(construct(args))
  {
    Failed(construct(args))
  }

  /** The default constructor `ResultException()`. */
  function DefaultException(): (e: ResultException)
    ensures e.component == "unknown component" && e.mesg == "Unknown exception"
  {
    ResultException(DefaultComponent, DefaultMesg)
  }

  /** `make_result_failed<T>()` and `make_result_failed<T>(component, mesg)`:
      the two constructors of `ResultException` that callers forward to. */
  lemma MakeResultFailedForwards<T>(component: string, mesg: string)
    ensures MakeResultFailed<(), T>(_ => DefaultException(), ()).GetException()
      == Returns(ResultException("unknown component", "Unknown exception"))
    ensures MakeResultFailed<(string, string), T>((p: (string, string)) => ResultException(p.0, p.1), (component, mesg)).GetException()
      == Returns(ResultException(component, mesg))
  {
  }
}
