/** The success/failure container every client call returns. */
module QuickbaseResults {
  import opened CSharp
  import Errors = QuickbaseErrors
  import Kinds = QuickbaseErrorTypes

  /** A result without a value. */
  datatype QuickbaseResult = QuickbaseResult(isSuccess: bool, quickbaseError: Errors.QuickbaseError)
  {
    /** The invariant the constructor enforces: success exactly when the
        error is the `None` instance. */
    predicate Valid()
    {
      isSuccess <==> quickbaseError == Errors.None
    }

    /** On a valid result, failure means exactly that the error is not `None`. */
    predicate IsFailure()
      ensures Valid() ==> (IsFailure() <==> quickbaseError != Errors.None)
    {
      !isSuccess
    }
  }

  const InvalidErrorMessage: string := "Invalid error"
  const FailureValueMessage: string := "The value of a failure result can't be accessed."

  /** The validating constructor: it throws ArgumentException for the error
      parameter when the flag disagrees with whether the error is `None`. */
  function New(isSuccess: bool, quickbaseError: Errors.QuickbaseError): (r: Outcome<QuickbaseResult>)
    ensures r.Returned? <==> (isSuccess <==> quickbaseError == Errors.None)
    ensures r.Returned? ==> r.value.Valid()
    ensures r.Returned? ==> r.value.isSuccess == isSuccess && r.value.quickbaseError == quickbaseError
    ensures r.Threw? ==> r.exception == ArgumentException(InvalidErrorMessage, "quickbaseError")
  {
    if (isSuccess && quickbaseError != Errors.None) || (!isSuccess && quickbaseError == Errors.None) then
      Threw(ArgumentException(InvalidErrorMessage, "quickbaseError"))
    else
      Returned(QuickbaseResult(isSuccess, quickbaseError))
  }

  /** A result carrying a value of type TValue; `storedValue` is the private
      field, `Null` where the source stores `default`. */
  datatype QuickbaseResultOf<TValue> = QuickbaseResultOf(result: QuickbaseResult, storedValue: Nullable<TValue>)
  {
    predicate Valid()
    {
      result.Valid()
    }

    /** The inherited IsSuccess: on a valid result, success exactly when the
        error is `None`. */
    predicate IsSuccess()
      ensures Valid() ==> (IsSuccess() <==> result.quickbaseError == Errors.None)
    {
      result.isSuccess
    }

    /** The inherited IsFailure, the negation of IsSuccess. */
    predicate IsFailure()
      ensures IsFailure() <==> !IsSuccess()
      ensures Valid() ==> (IsFailure() <==> result.quickbaseError != Errors.None)
    {
      result.IsFailure()
    }

    /** The inherited QuickbaseError property: on a valid result it is `None`
        exactly on success. */
    function Error(): (e: Errors.QuickbaseError)
      ensures e == result.quickbaseError
      ensures Valid() ==> (e == Errors.None <==> result.isSuccess)
    {
      result.quickbaseError
    }

    /** The Value property: the stored value on success, and an
        InvalidOperationException on failure. */
    function Value(): (v: Outcome<Nullable<TValue>>)
      ensures v.Returned? <==> IsSuccess()
      ensures v.Returned? ==> v.value == storedValue
      ensures v.Threw? ==> v.exception == InvalidOperationException(FailureValueMessage)
    {
      if result.isSuccess then Returned(storedValue)
      else Threw(InvalidOperationException(FailureValueMessage))
    }
  }

  /** The constructor of the generic result: the base constructor's check,
      then the value is stored. */
  function NewOf<TValue>(value: Nullable<TValue>, isSuccess: bool, quickbaseError: Errors.QuickbaseError)
    : (r: Outcome<QuickbaseResultOf<TValue>>)
    ensures r.Returned? <==> (isSuccess <==> quickbaseError == Errors.None)
    ensures r.Returned? ==> r.value.Valid() && r.value.storedValue == value
    ensures r.Returned? ==> r.value.IsSuccess() == isSuccess && r.value.Error() == quickbaseError
    ensures r.Threw? ==> r.exception == ArgumentException(InvalidErrorMessage, "quickbaseError")
  {
    match New(isSuccess, quickbaseError)
    case Threw(e) => Threw(e)
    case Returned(b) => Returned(QuickbaseResultOf(b, value))
  }

  function Success(): (r: QuickbaseResult)
    ensures r.Valid() && r.isSuccess && r.quickbaseError == Errors.None
  {
    New(true, Errors.None).value
  }

  function SuccessOf<TValue>(value: Nullable<TValue>): (r: QuickbaseResultOf<TValue>)
    ensures r.Valid() && r.IsSuccess() && r.Error() == Errors.None
    ensures r.Value() == Returned(value)
  {
    NewOf(value, true, Errors.None).value
  }

  /** Failure(error): legal only for an error other than `None`; with `None`
      the constructor throws. */
  function Failure(quickbaseError: Errors.QuickbaseError): (r: Outcome<QuickbaseResult>)
    ensures r.Returned? <==> quickbaseError != Errors.None
    ensures r.Returned? ==> r.value.Valid() && r.value.IsFailure() && r.value.quickbaseError == quickbaseError
    ensures r.Threw? ==> r.exception == ArgumentException(InvalidErrorMessage, "quickbaseError")
  {
    New(false, quickbaseError)
  }

  /** Failure<TValue>(error): as Failure, storing `default` as the value. */
  function FailureOf<TValue>(quickbaseError: Errors.QuickbaseError): (r: Outcome<QuickbaseResultOf<TValue>>)
    ensures r.Returned? <==> quickbaseError != Errors.None
    ensures r.Returned? ==> r.value.Valid() && r.value.IsFailure() && r.value.Error() == quickbaseError
    ensures r.Returned? ==> r.value.Value().Threw?
    ensures r.Threw? ==> r.exception == ArgumentException(InvalidErrorMessage, "quickbaseError")
  {
    NewOf(Null, false, quickbaseError)
  }

  /** The implicit conversion from a value: a non-null value becomes a
      success holding it, null becomes a failure with the `NullValue` error. */
  function FromValue<TValue>(value: Nullable<TValue>): (r: QuickbaseResultOf<TValue>)
    ensures r.Valid()
    ensures value.NonNull? ==> r == SuccessOf(value)
    ensures value.Null? ==> r.IsFailure() && r.Error() == Errors.NullValue
  {
    if value.NonNull? then SuccessOf(value)
    else
      Errors.SentinelsDistinct();
      FailureOf<TValue>(Errors.NullValue).value
  }

  /** Every result the constructor lets through keeps the invariant, and
      IsFailure is the negation of IsSuccess. */
  lemma ConstructedResultsAreValid(isSuccess: bool, quickbaseError: Errors.QuickbaseError)
    requires New(isSuccess, quickbaseError).Returned?
    ensures var r := New(isSuccess, quickbaseError).value;
      (r.isSuccess <==> r.quickbaseError == Errors.None) && r.IsFailure() == !r.isSuccess
  {
  }

  /** The two constructor cases the unit tests exercise, both rejected: success
      with a client error, and failure with `None`. */
  lemma ConstructorRejectsMismatch()
    ensures New(true, Errors.ClientError("InvalidError", "Invalid error occurred", "Description")).Threw?
    ensures New(false, Errors.None).Threw?
    ensures Failure(Errors.None).Threw? && FailureOf<int>(Errors.None).Threw?
  {
  }

  /** A failed result never hands out its stored value, whatever it is. */
  lemma FailureValueThrows<TValue>(r: QuickbaseResultOf<TValue>)
    requires r.Valid() && r.IsFailure()
    ensures r.Value() == Threw(InvalidOperationException(FailureValueMessage))
    ensures r.Error() != Errors.None
  {
  }

  /** Lifting null goes through Failure<TValue>(NullValue), which is legal
      because `NullValue` is not the `None` instance; and an error built with
      the contents of `None` is accepted as a failure too. */
  lemma NullValueFailureAccepted<TValue>()
    ensures FailureOf<TValue>(Errors.NullValue).Returned?
    ensures Failure(Errors.New("", "", "", Kinds.QuickbaseErrorType.Failure)).Returned?
    ensures FromValue<TValue>(Null).Value().Threw?
  {
    Errors.SentinelsDistinct();
  }
}
