# QuickbaseNet request and result layer in Dafny

This project models the part of the QuickbaseNet client library that builds
requests and wraps outcomes:

- the error model (`QuickbaseError`, its four kinds, the `None` and
  `NullValue` instances and the tagging factories);
- the result wrapper (`QuickbaseResult`, `QuickbaseResult<TValue>`), whose
  constructor throws unless success holds exactly when the error is `None`;
- the command builder (`QuickbaseCommandBuilder` with its nested
  `RecordBuilder`), which accumulates a table id, return fields, deletion
  criteria and a list of records;
- the query builder (`QuickbaseQueryBuilder`), which accumulates table,
  selection, filter, and lazily created sort and group lists;
- the plain request and model classes they produce, as datatypes.

Modules follow the source files: `QuickbaseErrorTypes`, `QuickbaseErrors`,
`QuickbaseResults`, `Models`, `Requests`, `CommandBuilder`, `QueryBuilder`.
Three small modules hold what those need from .NET and from call sequences:

- `CSharp`: `int32`, `Nullable<T>` (a reference that may be null), the
  exceptions thrown, and `Outcome<T>` for a member that may throw.
- `DecimalFormat`: `Int32.ToString()`, which builds record keys. It comes
  with its reading direction, which proves that distinct ids give distinct keys.
- `Histories`: "the last call that sets a field decides it".

The result and error files are pure, so they are modelled as datatypes and
functions. A thrown exception is an `Outcome.Threw` value, not a precondition.
The builders are classes whose fields the methods reassign. Each method states
its whole new state, and also ties that state to a specification function
`Step`. Lemmas about `Replay` (a fold of `Step`) give the properties of whole
call sequences: last call wins, records appear in call order, one record per
record call, and sort items appear in call order.

Two points worth noting, where the model follows the code:

- `None` is recognised by reference identity, because the class overloads no
  equality. So an error constructed with empty strings and kind `Failure` is
  not `None`. The model tags the two static instances (`Instance.TheNone`,
  `Instance.TheNullValue`). Every constructor-made error is `Constructed`,
  and `WellTagged` states that only the two static instances carry their tags.
- `ReturnFields` keeps its arguments as an array, in argument order and with
  duplicates kept.

## Model

| member | source | states |
|---|---|---|
| QuickbaseErrorTypes.ToInt | QuickbaseNet/Errors/QuickbaseErrorType.cs:6-27 | each kind's enum value is one of the declared values 0, 1, 3, 4 |
| QuickbaseErrorTypes.FromInt | QuickbaseNet/Errors/QuickbaseErrorType.cs:6-27 | every declared value names a kind with exactly that value |
| QuickbaseErrorTypes.FromIntToInt | QuickbaseNet/Errors/QuickbaseErrorType.cs:6-27 | value to kind undoes kind to value, so the enum has exactly the four kinds |
| QuickbaseErrorTypes.ToIntInjective | QuickbaseNet/Errors/QuickbaseErrorType.cs:11-26 | two kinds share a value only if they are the same kind |
| QuickbaseErrors.New | QuickbaseNet/Errors/QuickbaseError.cs:25-31 | the constructor stores code, message, description and kind unchanged, and its result is neither `None` nor `NullValue` and is well tagged |
| QuickbaseErrors.NotFound | QuickbaseNet/Errors/QuickbaseError.cs:60-61 | keeps the three strings verbatim, tags kind NotFound, is not `None` |
| QuickbaseErrors.Failure | QuickbaseNet/Errors/QuickbaseError.cs:70-71 | keeps the three strings verbatim, tags kind Failure, is not `None` |
| QuickbaseErrors.ClientError | QuickbaseNet/Errors/QuickbaseError.cs:80-81 | keeps the three strings verbatim, tags kind ClientError, is not `None` |
| QuickbaseErrors.ServerError | QuickbaseNet/Errors/QuickbaseError.cs:90-91 | keeps the three strings verbatim, tags kind ServerError, is not `None` |
| QuickbaseErrors.SentinelsDistinct | QuickbaseNet/Errors/QuickbaseError.cs:11-16 | `None` has empty strings and kind Failure; `NullValue` has code "Error.NullValue", message "Null value was provided", empty description and kind Failure; the two are different objects, and each carries its own tag |
| QuickbaseErrors.NoneIsIdentity | QuickbaseNet/Errors/QuickbaseError.cs:6-11 | an error freshly built from exactly `None`'s contents is still not `None` |
| QuickbaseErrors.FactoriesTagDistinctKinds | QuickbaseNet/Errors/QuickbaseError.cs:60-91 | the four factories give four different kinds for the same strings |
| QuickbaseResults.New | QuickbaseNet/QuickbaseResult.cs:8-18 | the constructor returns exactly when success and "error is `None`" agree, and otherwise throws ArgumentException("Invalid error") for `quickbaseError`; what it returns keeps the invariant and holds the given flag and error |
| QuickbaseResults.NewOf | QuickbaseNet/QuickbaseResult.cs:39-43 | the generic constructor applies the same check, then stores the value |
| QuickbaseResults.QuickbaseResult.IsFailure | QuickbaseNet/QuickbaseResult.cs:22 | IsFailure is the negation of IsSuccess; on a valid result it holds exactly when the error is not `None` |
| QuickbaseResults.QuickbaseResultOf.IsSuccess | QuickbaseNet/QuickbaseResult.cs:20-24 | the inherited IsSuccess; on a valid result it holds exactly when the error is `None` |
| QuickbaseResults.QuickbaseResultOf.IsFailure | QuickbaseNet/QuickbaseResult.cs:20-24 | the inherited IsFailure is the negation of IsSuccess and, on a valid result, holds exactly when the error is not `None` |
| QuickbaseResults.QuickbaseResultOf.Error | QuickbaseNet/QuickbaseResult.cs:20-24 | the inherited QuickbaseError property returns the stored error, which on a valid result is `None` exactly on success |
| QuickbaseResults.QuickbaseResultOf.Value | QuickbaseNet/QuickbaseResult.cs:45-47 | `Value` returns the stored value exactly on success; on failure it throws InvalidOperationException with the source's message |
| QuickbaseResults.Success | QuickbaseNet/QuickbaseResult.cs:26 | `Success()` is a valid success whose error is `None` |
| QuickbaseResults.SuccessOf | QuickbaseNet/QuickbaseResult.cs:28 | `Success(v)` is a valid success with error `None` whose `Value` returns `v` |
| QuickbaseResults.Failure | QuickbaseNet/QuickbaseResult.cs:30 | `Failure(e)` returns a valid failure carrying `e` exactly when `e` is not `None`, and otherwise throws ArgumentException("Invalid error") for `quickbaseError` |
| QuickbaseResults.FailureOf | QuickbaseNet/QuickbaseResult.cs:32 | as `Failure`, with the same exception for `None`, and the `default` it stores is never exposed: `Value` throws |
| QuickbaseResults.FromValue | QuickbaseNet/QuickbaseResult.cs:49-50 | the implicit conversion is always valid; it maps a non-null value to `Success(value)` and null to a failure whose error is `NullValue` |
| QuickbaseResults.ConstructedResultsAreValid | QuickbaseNet/QuickbaseResult.cs:10-22 | every constructed result has success exactly when its error is `None`, and IsFailure is the negation of IsSuccess |
| QuickbaseResults.ConstructorRejectsMismatch | QuickbaseNet.UnitTests/Tests/QuickbaseResultTests.cs:7-27 | success with a client error throws, failure with `None` throws, and so do `Failure(None)` and `Failure<T>(None)` |
| QuickbaseResults.FailureValueThrows | QuickbaseNet/QuickbaseResult.cs:45-47 | for every valid failed result, `Value` throws and the error is not `None` |
| QuickbaseResults.NullValueFailureAccepted | QuickbaseNet/QuickbaseResult.cs:49-50 | `Failure<T>(NullValue)` passes the invariant because `NullValue` is not `None`; a failure with an error built from `None`'s contents is accepted; the lifted null's `Value` throws |
| DecimalFormat.NatToString | QuickbaseNet/Helpers/QuickbaseCommandBuilder.cs:124 | the digits of a number are a non-empty digit string with no leading zero except for 0 itself |
| DecimalFormat.ToDecimalString | QuickbaseNet/Helpers/QuickbaseCommandBuilder.cs:124 | `ToString()` of an int is non-empty and starts with '-' exactly for negative numbers |
| DecimalFormat.DigitsRoundTrip | QuickbaseNet/Helpers/QuickbaseCommandBuilder.cs:124 | reading the digits of `n` back gives `n` |
| DecimalFormat.DecimalRoundTrip | QuickbaseNet/Helpers/QuickbaseCommandBuilder.cs:124 | reading `n.ToString()` back gives `n`, for every int |
| DecimalFormat.ToDecimalStringInjective | QuickbaseNet/Helpers/QuickbaseCommandBuilder.cs:122-126 | distinct field ids give distinct keys, and equal ids give equal keys |
| Histories.LastSetIsLastCall | QuickbaseNet/Helpers/QuickbaseCommandBuilder.cs:23-38 | the last call that sets a field decides its value |
| Histories.LastSetNoCall | QuickbaseNet/Helpers/QuickbaseCommandBuilder.cs:23-38 | a field that no call sets keeps its earlier value |
| CommandBuilder.WithFieldsLastWins | QuickbaseNet/Helpers/QuickbaseCommandBuilder.cs:133-140 | after a run of AddField calls, a field id holds the value of its last assignment |
| CommandBuilder.WithFieldsUntouched | QuickbaseNet/Helpers/QuickbaseCommandBuilder.cs:122-126 | a key that no assignment writes keeps its presence and value |
| CommandBuilder.WithFieldsKeys | QuickbaseNet/Helpers/QuickbaseCommandBuilder.cs:122-140 | the record's keys are the earlier keys plus one key per assigned field id, with no duplicates |
| CommandBuilder.WithFieldsConcat | QuickbaseNet/Helpers/QuickbaseCommandBuilder.cs:133-140 | two runs of assignments one after the other equal one run of their concatenation |
| CommandBuilder.UpdatedRecordOverridesKeyField | QuickbaseNet/Helpers/QuickbaseCommandBuilder.cs:59-68 | the updated record is the configured record with key "3" set to the record id's decimal string; this overrides a configured field 3 and keeps every other configured field |
| CommandBuilder.RecordBuilder.constructor | QuickbaseNet/Helpers/QuickbaseCommandBuilder.cs:113 | a new record builder has no fields |
| CommandBuilder.RecordBuilder.AddField | QuickbaseNet/Helpers/QuickbaseCommandBuilder.cs:122-126 | sets key `fieldId.ToString()` to the value, leaves every other key unchanged, and returns the same builder |
| CommandBuilder.RecordBuilder.AddFields | QuickbaseNet/Helpers/QuickbaseCommandBuilder.cs:133-140 | equals AddField on each pair from left to right |
| CommandBuilder.RecordBuilder.Build | QuickbaseNet/Helpers/QuickbaseCommandBuilder.cs:146-149 | returns the accumulated dictionary |
| CommandBuilder.RecordsAddedBy | QuickbaseNet/Helpers/QuickbaseCommandBuilder.cs:45-68 | the calls add one record per AddNewRecord or UpdateRecord call |
| CommandBuilder.ReplayCommandCalls | QuickbaseNet/Helpers/QuickbaseCommandBuilder.cs:23-79 | after any call sequence, table, deletion criteria and return fields hold the last value set, and the records are the earlier ones plus the new ones in call order |
| CommandBuilder.RecordCountMatchesCalls | QuickbaseNet/Helpers/QuickbaseCommandBuilder.cs:15-90 | a new builder's record count after any calls equals the number of AddNewRecord plus UpdateRecord calls |
| CommandBuilder.QuickbaseCommandBuilder.constructor | QuickbaseNet/Helpers/QuickbaseCommandBuilder.cs:13-16 | a new builder has null table, criteria and return fields, and an empty record list |
| CommandBuilder.QuickbaseCommandBuilder.ForTable | QuickbaseNet/Helpers/QuickbaseCommandBuilder.cs:23-27 | overwrites the table id only |
| CommandBuilder.QuickbaseCommandBuilder.ReturnFields | QuickbaseNet/Helpers/QuickbaseCommandBuilder.cs:34-38 | overwrites the return fields only, with the arguments in order |
| CommandBuilder.QuickbaseCommandBuilder.AddNewRecord | QuickbaseNet/Helpers/QuickbaseCommandBuilder.cs:45-51 | appends exactly the configured record at the end; earlier records and the other fields are unchanged |
| CommandBuilder.QuickbaseCommandBuilder.UpdateRecord | QuickbaseNet/Helpers/QuickbaseCommandBuilder.cs:59-68 | appends the configured record with field 3 set to the record id after the configuration; nothing else changes |
| CommandBuilder.QuickbaseCommandBuilder.WithDeletionCriteria | QuickbaseNet/Helpers/QuickbaseCommandBuilder.cs:75-79 | overwrites the deletion criteria only |
| CommandBuilder.QuickbaseCommandBuilder.BuildInsertUpdateCommand | QuickbaseNet/Helpers/QuickbaseCommandBuilder.cs:85-93 | the request holds the table id, the records in insertion order and the return fields; an unset table or return-field list is null |
| CommandBuilder.QuickbaseCommandBuilder.BuildDeleteCommand | QuickbaseNet/Helpers/QuickbaseCommandBuilder.cs:99-106 | the request holds the table id and deletion criteria, nothing of records or return fields |
| CommandBuilder.LastFieldWriteWins | QuickbaseNet/Helpers/QuickbaseCommandBuilder.cs:122-126 | AddField(5, "a") then AddField(5, "b") give one entry, "5" holding "b" |
| CommandBuilder.DeleteCommandOfNewBuilder | QuickbaseNet/Helpers/QuickbaseCommandBuilder.cs:99-106 | ForTable then WithDeletionCriteria, then a build, give exactly those two values |
| CommandBuilder.EmptyInsertUpdateCommand | QuickbaseNet/Requests/InsertOrUpdateRecordRequest.cs:17-29 | with nothing set, the built command has a null table and return fields and an empty record list; the property defaults are overridden |
| QueryBuilder.AppendedAllTwice | QuickbaseNet/Helpers/QuickbaseQueryBuilder.cs:32-48 | appending two runs of items equals appending their concatenation, and one item is appended as SortBy/GroupBy do |
| QueryBuilder.ReplayQueryCalls | QuickbaseNet/Helpers/QuickbaseQueryBuilder.cs:14-48 | after any call sequence, from, select and where hold the last value set (Select replaces, it does not append); the sort and group lists are extended by one item per call in call order, and stay null without such calls |
| QueryBuilder.SortByCallsInOrder | QuickbaseNet/Helpers/QuickbaseQueryBuilder.cs:32-39 | n SortBy calls give n items holding their (fieldId, order) pairs in call order |
| QueryBuilder.GroupByCallsInOrder | QuickbaseNet/Helpers/QuickbaseQueryBuilder.cs:41-48 | n GroupBy calls give n items holding their (fieldId, grouping) pairs in call order |
| QueryBuilder.SortListAbsentUntilFirstCall | QuickbaseNet/Helpers/QuickbaseQueryBuilder.cs:11-39 | on a new builder the sort list is null exactly when no SortBy call was made |
| QueryBuilder.GroupListAbsentUntilFirstCall | QuickbaseNet/Helpers/QuickbaseQueryBuilder.cs:12-48 | on a new builder the group list is null exactly when no GroupBy call was made |
| QueryBuilder.QuickbaseQueryBuilder.constructor | QuickbaseNet/Helpers/QuickbaseQueryBuilder.cs:8-12 | a new builder has all five fields null |
| QueryBuilder.QuickbaseQueryBuilder.From | QuickbaseNet/Helpers/QuickbaseQueryBuilder.cs:14-18 | overwrites the table only |
| QueryBuilder.QuickbaseQueryBuilder.Select | QuickbaseNet/Helpers/QuickbaseQueryBuilder.cs:20-24 | replaces the selection by the arguments in order; nothing else changes |
| QueryBuilder.QuickbaseQueryBuilder.Where | QuickbaseNet/Helpers/QuickbaseQueryBuilder.cs:26-30 | overwrites the filter only |
| QueryBuilder.QuickbaseQueryBuilder.SortBy | QuickbaseNet/Helpers/QuickbaseQueryBuilder.cs:32-39 | creates the sort list if null, then appends one item at its end; nothing else changes |
| QueryBuilder.QuickbaseQueryBuilder.GroupBy | QuickbaseNet/Helpers/QuickbaseQueryBuilder.cs:41-48 | creates the group list if null, then appends one item at its end; nothing else changes |
| QueryBuilder.QuickbaseQueryBuilder.Build | QuickbaseNet/Helpers/QuickbaseQueryBuilder.cs:50-60 | the request carries exactly from, select, where, sortBy and groupBy, and its Options is always null; Build has no precondition and never fails |
| QueryBuilder.SimpleQuery | QuickbaseNet/Helpers/QuickbaseQueryBuilder.cs:14-60 | From, Select and Where on a new builder, then Build, give back exactly those values with no sort, grouping or options |
| QueryBuilder.SortedQuery | QuickbaseNet/Helpers/QuickbaseQueryBuilder.cs:14-60 | a later From wins, and two SortBy calls keep both items in call order |

## Left out

- `QuickbaseNet/Services/QuickbaseClient.cs` is not part of this model. It is
  HTTP transport, headers, asynchronous calls and JSON (de)serialisation, and
  its only decision is a two-way split on the transport's success status.
- `FieldValue.GetValue<T>` is left out. It relies on run-time type conversion
  (`Convert.ChangeType`). `FieldValue` is kept as a wrapper around a nullable
  variant value (`ClrValue`).
- JSON property names and null-value handling on the request and model
  classes are left out. They are wire encoding.
- The response classes (`QuickbaseQueryResponse`, `QuickbaseRecordUpdateResponse`,
  `QuickbaseErrorResponse`, `Metadata`, `Field`) are left out. They hold data
  that only the client reads.
- Test scaffolding and the example program are left out.
- CommandBuilder.QuickbaseCommandBuilder.BuildInsertUpdateCommand: the model
  uses value semantics. The request holds the record list as it is when built.
  The source hands out the builder's live list, so later AddNewRecord or
  UpdateRecord calls also show up in an earlier-built request. The same holds
  for the caller's `ReturnFields` array.
- QueryBuilder.QuickbaseQueryBuilder.Build: value semantics as above. The source
  shares the live `_select`, `_sortBy` and `_groupBy` lists with the request,
  so later SortBy or GroupBy calls also change an earlier-built request.
- CommandBuilder.RecordBuilder.Build: value semantics. The source returns the
  live dictionary. A caller that keeps the record builder after its callback
  could still change a record already in the command; the model does not
  capture that.
- A record-configuration callback is modelled as the sequence of AddField calls
  it makes. Other side effects a callback might have are not modelled.
- Null arguments are not modelled: every string parameter and every
  `params int[]` parameter is non-null. In the source, `ForTable(null)`,
  `From(null)` and similar calls reset a field to null, and `Select(null)`
  throws ArgumentNullException from `ToList`.
- A null error is not modelled: every `quickbaseError` argument is an error
  object. In the source, `Failure(null)` returns a failed result whose error is
  null, and a success constructed with a null error throws ArgumentException.
- A null configuration callback is not modelled: in the source,
  `AddNewRecord(null)` and `UpdateRecord(id, null)` throw NullReferenceException
  when they invoke it, and `AddFields(null)` throws from its `foreach`.
- Only four kinds of cell value are modelled (`ClrValue`: text, integer,
  decimal, boolean). `AddField<T>` accepts a value of any type, for example a
  date; such values are not modelled.
- QuickbaseErrors.New: errors are compared only by identity with the two
  static instances. Two separately constructed errors with equal contents are
  equal values here, but different objects in the source. The source never
  compares such errors, only against `None`.
- An enum value outside 0, 1, 3, 4 cast to `QuickbaseErrorType` is not
  modelled. The source never produces one.
- `ToString()` is modelled for the invariant culture, with '-' as the
  negative sign. A culture with another negative sign is not modelled.
- Floating point inside `ClrValue.Decimal` is a mathematical real.
