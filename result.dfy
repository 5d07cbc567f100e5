/**
 * Result<T>, BadResult and Result<void>: a status code paired with an optional value.
 * Access to the value is gated by the code's severity, not by whether a value is stored.
 */
module Results {
  import opened StatusCodes

  datatype Option<T> = None | Some(value: T)

  /** What the checked accessor value() produces: the value, or the exception thrown by throwIfBad. */
  datatype Access<T> = Returned(value: T) | Thrown(code: StatusCode)

  /** The code of a BadResult is Bad: the constructor asserts it. */
  type BadCode = c: StatusCode | IsBad(c) witness BAD_UNEXPECTED_ERROR

  /** A bad result: only a status code, known to be Bad. */
  datatype BadResult = BadResult(code_: BadCode) {
    function Code(): (c: StatusCode)
      ensures IsBad(c)
    {
      code_
    }
  }

  /** BadResult(code): the caller must pass a Bad code; code() gives it back. */
  function NewBadResult(c: StatusCode): (e: BadResult)
    requires IsBad(c)
    ensures e.Code() == c
  {
    BadResult(c)
  }

  /**
   * A Result: the fields code_ and maybeValue_ are private in the source and
   * set only by the constructors below.
   */
  datatype Result<T> = Result(code_: StatusCode, maybeValue_: Option<T>) {

    /** The invariant every public constructor establishes: a Bad code has no value. */
    predicate Valid() {
      IsBad(code_) ==> maybeValue_.None?
    }

    /** code(): under the invariant, a Bad code means there is no value. */
    function Code(): (c: StatusCode)
      ensures Valid() && IsBad(c) ==> maybeValue_.None?
    {
      code_
    }

    /** hasValue(): under the invariant, a stored value means the code is Good or Uncertain. */
    predicate HasValue()
      ensures HasValue() && Valid() ==> !IsBad(code_)
    {
      maybeValue_.Some?
    }

    /** operator*: unchecked access to the stored value, undefined (a precondition here) without one. */
    function Deref(): (d: T)
      requires HasValue()
      ensures maybeValue_ == Some(d)
    {
      maybeValue_.value
    }

    /**
     * value(): throws the stored code when it is Bad, otherwise returns the stored value.
     * With a non-Bad code and no stored value the source dereferences an empty optional,
     * which is undefined; that case is excluded by the precondition.
     */
    function Value(): (a: Access<T>)
      requires IsBad(Code()) || HasValue()
      ensures a.Thrown? <==> IsBad(Code())
      ensures a.Thrown? ==> a.code == Code()
      ensures a.Returned? ==> HasValue() && a.value == maybeValue_.value
    {
      match ThrowIfBad(code_)
      case Throw(c) => Thrown(c)
      case Pass => Returned(Deref())
    }

    /** valueOr(d): the stored value when the code is not Bad, d otherwise. */
    function ValueOr(d: T): (r: T)
      requires IsBad(Code()) || HasValue()
      ensures !IsBad(Code()) ==> HasValue() && r == maybeValue_.value
      ensures IsBad(Code()) ==> r == d
    {
      if !IsBad(code_) then Deref() else d
    }
  }

  /**
   * Result(): Good code. Whether the optional holds a default-initialised value
   * depends on overload resolution in the source, so it is a parameter here.
   */
  function Default<T>(init: Option<T>): (r: Result<T>)
    ensures r.Valid()
    ensures r.Code() == GOOD && IsGood(r.Code())
  {
    Result(GOOD, init)
  }

  /** Result(value): the default (Good) code and the given value. */
  function Of<T>(v: T): (r: Result<T>)
    ensures r.Valid()
    ensures r.Code() == GOOD && IsGood(r.Code())
    ensures r.HasValue() && r.Deref() == v
    ensures r.Value() == Returned(v)
  {
    Result(GOOD, Some(v))
  }

  /** Result(BadResult): the bad code and no value; value() throws that code. */
  function FromBad<T>(e: BadResult): (r: Result<T>)
    ensures r.Valid()
    ensures r.Code() == e.Code() && IsBad(r.Code())
    ensures !r.HasValue()
    ensures r.Value() == Thrown(e.Code())
  {
    Result(e.Code(), None)
  }

  /** Result(code, value): any non-Bad code (Good or Uncertain) together with a value. */
  function WithCode<T>(c: StatusCode, v: T): (r: Result<T>)
    requires !IsBad(c)
    ensures r.Valid()
    ensures r.Code() == c
    ensures r.HasValue() && r.Deref() == v
    ensures r.Value() == Returned(v)
  {
    Result(c, Some(v))
  }

  /** operator* and value() agree wherever value() does not throw; where it throws, operator* still reads the value. */
  lemma DerefAgreesWithValue<T>(r: Result<T>)
    requires r.HasValue()
    ensures !IsBad(r.Code()) ==> r.Value() == Returned(r.Deref())
    ensures IsBad(r.Code()) ==> r.Value() == Thrown(r.Code()) && r.Deref() == r.maybeValue_.value
  {
  }

  /** valueOr(d) agrees with value(): it is value() where that returns, and d where it throws. */
  lemma ValueOrAgreesWithValue<T>(r: Result<T>, d: T)
    requires IsBad(r.Code()) || r.HasValue()
    ensures r.ValueOr(d) == match r.Value() case Returned(v) => v case Thrown(_) => d
  {
  }

  /** On a valid Result, a Bad code means no value is stored, so access is always defined. */
  lemma ValidResultIsAccessible<T>(r: Result<T>)
    requires r.Valid()
    requires r.HasValue() || IsBad(r.Code())
    ensures IsBad(r.Code()) ==> !r.HasValue()
    ensures r.HasValue() ==> !IsBad(r.Code()) && r.Value() == Returned(r.Deref())
  {
  }

  /** An Uncertain code keeps the value accessible: value() and valueOr both return it. */
  lemma UncertainValueIsUsable<T>(c: StatusCode, v: T, d: T)
    requires IsUncertain(c)
    ensures WithCode(c, v).Value() == Returned(v)
    ensures WithCode(c, v).ValueOr(d) == v
  {
  }

  /** The scenario of a Bad Result<double>, with an int standing in for the double. */
  lemma BadScenario()
    ensures !FromBad<int>(NewBadResult(BAD_UNEXPECTED_ERROR)).HasValue()
    ensures IsBad(FromBad<int>(NewBadResult(BAD_UNEXPECTED_ERROR)).Code())
    ensures FromBad<int>(NewBadResult(BAD_UNEXPECTED_ERROR)).ValueOr(0) == 0
  {
  }

  /** Result<void>: only a status code. */
  datatype VoidResult = VoidResult(code_: StatusCode) {
    /** code(): the code is the whole state of a Result<void>. */
    function Code(): (c: StatusCode)
      ensures VoidResult(c) == this
    {
      code_
    }

    /** The implicit conversion to StatusCode: the stored code. */
    function ToStatusCode(): (c: StatusCode)
      ensures c == Code()
    {
      code_
    }
  }

  /** Result<void>(): Good. */
  function DefaultVoid(): (r: VoidResult)
    ensures r.Code() == GOOD && IsGood(r.Code())
  {
    VoidResult(GOOD)
  }

  /** Result<void>(code): any code is kept as it is. */
  function VoidOf(c: StatusCode): (r: VoidResult)
    ensures r.Code() == c && r.ToStatusCode() == c
  {
    VoidResult(c)
  }

  /** Result<void>(BadResult): the bad code. */
  function VoidFromBad(e: BadResult): (r: VoidResult)
    ensures r.Code() == e.Code() && IsBad(r.Code())
    ensures r.ToStatusCode() == e.Code()
  {
    VoidResult(e.Code())
  }
}
