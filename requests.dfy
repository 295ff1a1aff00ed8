/** The request objects sent to the Quickbase API. Every property is a
    settable reference, so each may be null. */
module Requests {
  import opened CSharp
  import opened Models

  /** One record: field id (as a decimal string) to cell. */
  type Record = map<string, FieldValue>

  datatype QuickbaseQueryRequest = QuickbaseQueryRequest(
    from: Nullable<string>,
    select: Nullable<seq<int32>>,
    where: Nullable<string>,
    sortBy: Nullable<seq<SortByItem>>,
    groupBy: Nullable<seq<GroupByItem>>,
    options: Nullable<Options>)

  datatype InsertOrUpdateRecordRequest = InsertOrUpdateRecordRequest(
    to: Nullable<string>,
    data: Nullable<seq<Record>>,
    fieldsToReturn: Nullable<seq<int32>>)

  /** What `new InsertOrUpdateRecordRequest()` holds before an object
      initializer runs: the property initializers' empty string, list and array. */
  const DefaultInsertOrUpdateRecordRequest: InsertOrUpdateRecordRequest :=
    InsertOrUpdateRecordRequest(NonNull(""), NonNull([]), NonNull([]))

  datatype DeleteRecordRequest = DeleteRecordRequest(from: Nullable<string>, where: Nullable<string>)
}
