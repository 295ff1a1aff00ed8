/** The plain data classes the builders fill in. */
module Models {
  import opened CSharp

  /** The run-time values a caller may hand to AddField, which stores them as
      `object`. */
  datatype ClrValue =
    | Text(text: string)
    | Integer(integer: int)
    | Decimal(decimal: real)
    | Boolean(boolean: bool)

  /** One cell: `{ "value": ... }`. The value may be null. */
  datatype FieldValue = FieldValue(value: Nullable<ClrValue>)

  datatype SortByItem = SortByItem(fieldId: int32, order: string)

  datatype GroupByItem = GroupByItem(fieldId: int32, grouping: string)

  datatype Options = Options(skip: int32, top: int32, compareWithAppLocalTime: bool)
}
