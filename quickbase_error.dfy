/** Immutable error values of the Quickbase client, with the two static
    instances `None` and `NullValue` and the four tagging factories. */
module QuickbaseErrors {
  import opened QuickbaseErrorTypes

  /** Which object an error is. The source compares errors with `None` by
      reference, never by contents, so the model tags the two static
      instances; every error made by the constructor is `Constructed`. */
  datatype Instance = TheNone | TheNullValue | Constructed

  /** An error. Its properties have private setters that only the
      constructor uses, so a value of this datatype never changes. */
  datatype QuickbaseError = QuickbaseError(
    instance: Instance,
    code: string,
    message: string,
    description: string,
    errorType: QuickbaseErrorType)
  {
    /** Only the two static instances carry their tags: an error tagged
        `TheNone` is `None` itself, and one tagged `TheNullValue` is `NullValue`. */
    predicate WellTagged()
    {
      (instance == TheNone ==> this == None) && (instance == TheNullValue ==> this == NullValue)
    }
  }

  /** "No error": empty strings, kind Failure. */
  const None: QuickbaseError := QuickbaseError(TheNone, "", "", "", QuickbaseErrorType.Failure)

  /** The error a null value is lifted to. */
  const NullValue: QuickbaseError :=
    QuickbaseError(TheNullValue, "Error.NullValue", "Null value was provided", "", QuickbaseErrorType.Failure)

  /** The public constructor: a new object holding exactly its arguments. */
  function New(code: string, message: string, description: string, errorType: QuickbaseErrorType): (e: QuickbaseError)
    ensures e.code == code && e.message == message && e.description == description
    ensures e.errorType == errorType
    ensures e != None && e != NullValue
    ensures e.WellTagged()
  {
    QuickbaseError(Constructed, code, message, description, errorType)
  }

  function NotFound(code: string, message: string, description: string): (e: QuickbaseError)
    ensures e.code == code && e.message == message && e.description == description
    ensures e.errorType == QuickbaseErrorType.NotFound
    ensures e != None && e.WellTagged()
  {
    New(code, message, description, QuickbaseErrorType.NotFound)
  }

  function Failure(code: string, message: string, description: string): (e: QuickbaseError)
    ensures e.code == code && e.message == message && e.description == description
    ensures e.errorType == QuickbaseErrorType.Failure
    ensures e != None && e.WellTagged()
  {
    New(code, message, description, QuickbaseErrorType.Failure)
  }

  function ClientError(code: string, message: string, description: string): (e: QuickbaseError)
    ensures e.code == code && e.message == message && e.description == description
    ensures e.errorType == QuickbaseErrorType.ClientError
    ensures e != None && e.WellTagged()
  {
    New(code, message, description, QuickbaseErrorType.ClientError)
  }

  function ServerError(code: string, message: string, description: string): (e: QuickbaseError)
    ensures e.code == code && e.message == message && e.description == description
    ensures e.errorType == QuickbaseErrorType.ServerError
    ensures e != None && e.WellTagged()
  {
    New(code, message, description, QuickbaseErrorType.ServerError)
  }

  /** `None` and `NullValue` are two different objects with different contents. */
  lemma SentinelsDistinct()
    ensures None != NullValue
    ensures None.code == "" && None.message == "" && None.description == ""
    ensures NullValue.code == "Error.NullValue" && NullValue.message == "Null value was provided"
    ensures NullValue.description == ""
    ensures None.errorType == NullValue.errorType == QuickbaseErrorType.Failure
    ensures None.WellTagged() && NullValue.WellTagged()
  {
  }

  /** Being `None` is a matter of identity: an error constructed with exactly
      the contents of `None` is still not `None`. */
  lemma NoneIsIdentity()
    ensures var e := New("", "", "", QuickbaseErrorType.Failure);
      e.code == None.code && e.message == None.message && e.description == None.description
      && e.errorType == None.errorType && e != None
    ensures Failure("", "", "") != None
  {
  }

  /** The kind of an error made by a factory is the factory's kind, so the
      four factories never produce errors of the same kind. */
  lemma FactoriesTagDistinctKinds(code: string, message: string, description: string)
    ensures var kinds := [NotFound(code, message, description).errorType,
                          Failure(code, message, description).errorType,
                          ClientError(code, message, description).errorType,
                          ServerError(code, message, description).errorType];
      forall i, j :: 0 <= i < j < 4 ==> kinds[i] != kinds[j]
  {
  }
}
