/** The kinds of Quickbase API error and their enum values. */
module QuickbaseErrorTypes {

  datatype QuickbaseErrorType = Failure | NotFound | ClientError | ServerError

  /** The numeric value the enum declaration gives each kind. */
  function ToInt(t: QuickbaseErrorType): (n: int)
    ensures IsDefined(n)
  {
    match t
    case Failure => 0
    case NotFound => 1
    case ClientError => 3
    case ServerError => 4
  }

  /** The values that name a declared kind (2 is skipped). */
  predicate IsDefined(n: int)
  {
    n == 0 || n == 1 || n == 3 || n == 4
  }

  /** The kind a declared numeric value names. */
  function FromInt(n: int): (t: QuickbaseErrorType)
    requires IsDefined(n)
    ensures ToInt(t) == n
  {
    if n == 0 then Failure
    else if n == 1 then NotFound
    else if n == 3 then ClientError
    else ServerError
  }

  lemma FromIntToInt(t: QuickbaseErrorType)
    ensures FromInt(ToInt(t)) == t
  {
  }

  /** No two kinds share a value. */
  lemma ToIntInjective(a: QuickbaseErrorType, b: QuickbaseErrorType)
    ensures ToInt(a) == ToInt(b) <==> a == b
  {
  }
}
