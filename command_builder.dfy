/** The fluent builder of insert/update and delete commands, with the nested
    builder of one record. */
module CommandBuilder {
  import opened CSharp
  import opened Models
  import opened Requests
  import opened DecimalFormat
  import opened Histories

  /** One AddField(fieldId, value) call. A record-configuration callback is
      modelled as the AddField calls it makes on the record builder, in order. */
  datatype FieldAssignment = FieldAssignment(fieldId: int32, value: Nullable<ClrValue>)

  /** The key a field id is stored under: fieldId.ToString(). */
  function FieldKey(fieldId: int32): string
  {
    ToDecimalString(fieldId)
  }

  /** The record that results from the assignments applied in order to
      `fields`: each one sets its key, so a later one wins. */
  function WithFields(fields: Record, assignments: seq<FieldAssignment>): Record
    decreases |assignments|
  {
    if assignments == [] then fields
    else
      var last := assignments[|assignments| - 1];
      WithFields(fields, assignments[..|assignments| - 1])[FieldKey(last.fieldId) := FieldValue(last.value)]
  }

  /** The field UpdateRecord uses as the record's key. */
  const RecordIdFieldId: int32 := 3

  /** The record UpdateRecord(recordId, config) appends: the configured fields,
      then field 3 set to the record id's decimal string. */
  function UpdatedRecord(recordId: int32, config: seq<FieldAssignment>): Record
  {
    WithFields(map[], config + [FieldAssignment(RecordIdFieldId, NonNull(Text(ToDecimalString(recordId))))])
  }

  /** Distinct field ids are stored under distinct keys. */
  lemma FieldKeyInjective(a: int32, b: int32)
    requires a != b
    ensures FieldKey(a) != FieldKey(b)
  {
    ToDecimalStringInjective(a, b);
  }

  /** After the assignments, a field id holds the value of its last assignment. */
  lemma {:induction false} WithFieldsLastWins(fields: Record, assignments: seq<FieldAssignment>, i: nat)
    requires i < |assignments|
    requires forall j :: i < j < |assignments| ==> assignments[j].fieldId != assignments[i].fieldId
    ensures FieldKey(assignments[i].fieldId) in WithFields(fields, assignments)
    ensures WithFields(fields, assignments)[FieldKey(assignments[i].fieldId)] == FieldValue(assignments[i].value)
    decreases |assignments|
  {
    var n := |assignments|;
    if i < n - 1 {
      var prefix := assignments[..n - 1];
      var last := assignments[n - 1];
      assert forall j :: i < j < |prefix| ==> prefix[j] == assignments[j];
      WithFieldsLastWins(fields, prefix, i);
      FieldKeyInjective(last.fieldId, assignments[i].fieldId);
      assert WithFields(fields, assignments)
          == WithFields(fields, prefix)[FieldKey(last.fieldId) := FieldValue(last.value)];
    }
  }

  /** A key no assignment writes keeps whatever `fields` had for it. */
  lemma {:induction false} WithFieldsUntouched(fields: Record, assignments: seq<FieldAssignment>, key: string)
    requires forall j :: 0 <= j < |assignments| ==> FieldKey(assignments[j].fieldId) != key
    ensures key in WithFields(fields, assignments) <==> key in fields
    ensures key in fields ==> WithFields(fields, assignments)[key] == fields[key]
    decreases |assignments|
  {
    if assignments != [] {
      var prefix := assignments[..|assignments| - 1];
      assert forall j :: 0 <= j < |prefix| ==> prefix[j] == assignments[j];
      WithFieldsUntouched(fields, prefix, key);
    }
  }

  /** The keys are those of `fields` plus one per assigned field id: no
      duplicates, nothing else. */
  lemma {:induction false} WithFieldsKeys(fields: Record, assignments: seq<FieldAssignment>)
    ensures WithFields(fields, assignments).Keys
         == fields.Keys + set a | a in assignments :: FieldKey(a.fieldId)
    decreases |assignments|
  {
    if assignments != [] {
      var prefix := assignments[..|assignments| - 1];
      var last := assignments[|assignments| - 1];
      WithFieldsKeys(fields, prefix);
      assert assignments == prefix + [last];
      assert (set a | a in assignments :: FieldKey(a.fieldId))
          == (set a | a in prefix :: FieldKey(a.fieldId)) + {FieldKey(last.fieldId)};
    }
  }

  /** Applying two runs of assignments one after the other is applying their
      concatenation: AddFields calls compose. */
  lemma {:induction false} WithFieldsConcat(fields: Record, first: seq<FieldAssignment>, second: seq<FieldAssignment>)
    ensures WithFields(WithFields(fields, first), second) == WithFields(fields, first + second)
    decreases |second|
  {
    if second == [] {
      assert first + second == first;
    } else {
      var n := |second|;
      var all := first + second;
      assert all[..|all| - 1] == first + second[..n - 1];
      assert all[|all| - 1] == second[n - 1];
      WithFieldsConcat(fields, first, second[..n - 1]);
    }
  }

  /** UpdateRecord's record is the configured record with key "3" set to the
      record id's decimal string, overriding any field 3 the configuration set
      and keeping every other configured field. */
  lemma UpdatedRecordOverridesKeyField(recordId: int32, config: seq<FieldAssignment>)
    ensures FieldKey(RecordIdFieldId) == "3"
    ensures UpdatedRecord(recordId, config)
         == WithFields(map[], config)["3" := FieldValue(NonNull(Text(ToDecimalString(recordId))))]
  {
    var all := config + [FieldAssignment(RecordIdFieldId, NonNull(Text(ToDecimalString(recordId))))];
    assert all[..|all| - 1] == config;
  }

  /** The nested record builder: a dictionary updated in place. */
  class RecordBuilder {
    var fields: Record

    constructor ()
      ensures fields == map[]
    {
      fields := map[];
    }

    /** AddField(fieldId, value): the key fieldId.ToString() now holds the value;
        every other key is as it was. */
    method AddField(fieldId: int32, value: Nullable<ClrValue>) returns (builder: RecordBuilder)
      modifies this
      ensures builder == this
      ensures fields == old(fields)[FieldKey(fieldId) := FieldValue(value)]
    {
      fields := fields[FieldKey(fieldId) := FieldValue(value)];
      builder := this;
    }

    /** AddFields(pairs): AddField on each pair, left to right. */
    method AddFields(assignments: seq<FieldAssignment>) returns (builder: RecordBuilder)
      modifies this
      ensures builder == this
      ensures fields == WithFields(old(fields), assignments)
    {
      for i := 0 to |assignments|
        invariant fields == WithFields(old(fields), assignments[..i])
      {
        var _ := AddField(assignments[i].fieldId, assignments[i].value);
        assert assignments[..i + 1][..i] == assignments[..i];
      }
      assert assignments[..|assignments|] == assignments;
      builder := this;
    }

    method Build() returns (record: Record)
      ensures record == fields
    {
      record := fields;
    }
  }

  /** What a command builder holds between calls. */
  datatype CommandState = CommandState(
    tableId: Nullable<string>,
    whereClauseForDeletion: Nullable<string>,
    records: seq<Record>,
    fieldsToReturn: Nullable<seq<int32>>)

  /** A new builder: nothing set, no record. */
  const InitialCommandState: CommandState := CommandState(Null, Null, [], Null)

  /** The state-changing calls of the command builder. */
  datatype CommandCall =
    | ForTable(tableId: string)
    | ReturnFields(fieldIds: seq<int32>)
    | AddNewRecord(config: seq<FieldAssignment>)
    | UpdateRecord(recordId: int32, config: seq<FieldAssignment>)
    | WithDeletionCriteria(whereClause: string)

  /** The record a call appends, if it appends one. */
  function RecordAddedBy(c: CommandCall): Nullable<Record>
  {
    match c
    case AddNewRecord(config) => NonNull(WithFields(map[], config))
    case UpdateRecord(recordId, config) => NonNull(UpdatedRecord(recordId, config))
    case _ => Null
  }

  /** The effect of one call. */
  function Step(s: CommandState, c: CommandCall): CommandState
  {
    match c
    case ForTable(tableId) => s.(tableId := NonNull(tableId))
    case ReturnFields(fieldIds) => s.(fieldsToReturn := NonNull(fieldIds))
    case WithDeletionCriteria(whereClause) => s.(whereClauseForDeletion := NonNull(whereClause))
    case AddNewRecord(config) => s.(records := s.records + [WithFields(map[], config)])
    case UpdateRecord(recordId, config) => s.(records := s.records + [UpdatedRecord(recordId, config)])
  }

  /** The effect of a sequence of calls, first to last. */
  function Replay(s: CommandState, calls: seq<CommandCall>): CommandState
    decreases |calls|
  {
    if calls == [] then s else Step(Replay(s, calls[..|calls| - 1]), calls[|calls| - 1])
  }

  function TableIdSetBy(c: CommandCall): Nullable<string>
  {
    if c.ForTable? then NonNull(c.tableId) else Null
  }

  function WhereSetBy(c: CommandCall): Nullable<string>
  {
    if c.WithDeletionCriteria? then NonNull(c.whereClause) else Null
  }

  function FieldsToReturnSetBy(c: CommandCall): Nullable<seq<int32>>
  {
    if c.ReturnFields? then NonNull(c.fieldIds) else Null
  }

  /** How many calls append a record. */
  function RecordCallCount(calls: seq<CommandCall>): nat
    decreases |calls|
  {
    if calls == [] then 0
    else RecordCallCount(calls[..|calls| - 1]) + (if RecordAddedBy(calls[|calls| - 1]).NonNull? then 1 else 0)
  }

  /** The records the calls append, in call order: one per AddNewRecord or
      UpdateRecord call. */
  function RecordsAddedBy(calls: seq<CommandCall>): (records: seq<Record>)
    ensures |records| == RecordCallCount(calls)
    decreases |calls|
  {
    if calls == [] then []
    else
      var added := RecordAddedBy(calls[|calls| - 1]);
      RecordsAddedBy(calls[..|calls| - 1]) + (if added.NonNull? then [added.value] else [])
  }

  /** After any sequence of calls: each scalar field holds what the last call
      that sets it gave (or its earlier value), and the records are the earlier
      ones followed by one per record call, in call order. */
  lemma {:induction false} ReplayCommandCalls(s: CommandState, calls: seq<CommandCall>)
    ensures Replay(s, calls).tableId == LastSet(calls, TableIdSetBy, s.tableId)
    ensures Replay(s, calls).whereClauseForDeletion == LastSet(calls, WhereSetBy, s.whereClauseForDeletion)
    ensures Replay(s, calls).fieldsToReturn == LastSet(calls, FieldsToReturnSetBy, s.fieldsToReturn)
    ensures Replay(s, calls).records == s.records + RecordsAddedBy(calls)
    decreases |calls|
  {
    if calls != [] {
      ReplayCommandCalls(s, calls[..|calls| - 1]);
    }
  }

  /** The command built after any sequence of calls on a new builder holds one
      record per AddNewRecord or UpdateRecord call. */
  lemma {:induction false} RecordCountMatchesCalls(calls: seq<CommandCall>)
    ensures |Replay(InitialCommandState, calls).records| == RecordCallCount(calls)
    ensures RecordCallCount(calls) == 0 ==> Replay(InitialCommandState, calls).records == []
  {
    ReplayCommandCalls(InitialCommandState, calls);
  }

  /** The fluent command builder. */
  class QuickbaseCommandBuilder {
    var tableId: Nullable<string>
    var whereClauseForDeletion: Nullable<string>
    var records: seq<Record>
    var fieldsToReturn: Nullable<seq<int32>>

    function State(): CommandState
      reads this
    {
      CommandState(tableId, whereClauseForDeletion, records, fieldsToReturn)
    }

    constructor ()
      ensures State() == InitialCommandState
    {
      tableId := Null;
      whereClauseForDeletion := Null;
      records := [];
      fieldsToReturn := Null;
    }

    method ForTable(tableId: string) returns (builder: QuickbaseCommandBuilder)
      modifies this
      ensures builder == this
      ensures this.tableId == NonNull(tableId)
      ensures whereClauseForDeletion == old(whereClauseForDeletion)
      ensures records == old(records) && fieldsToReturn == old(fieldsToReturn)
      ensures State() == Step(old(State()), CommandCall.ForTable(tableId))
    {
      this.tableId := NonNull(tableId);
      builder := this;
    }

    method ReturnFields(fieldIds: seq<int32>) returns (builder: QuickbaseCommandBuilder)
      modifies this
      ensures builder == this
      ensures fieldsToReturn == NonNull(fieldIds)
      ensures tableId == old(tableId) && whereClauseForDeletion == old(whereClauseForDeletion)
      ensures records == old(records)
      ensures State() == Step(old(State()), CommandCall.ReturnFields(fieldIds))
    {
      fieldsToReturn := NonNull(fieldIds);
      builder := this;
    }

    /** Runs the configuration on a new record builder and appends its record. */
    method AddNewRecord(config: seq<FieldAssignment>) returns (builder: QuickbaseCommandBuilder)
      modifies this
      ensures builder == this
      ensures records == old(records) + [WithFields(map[], config)]
      ensures tableId == old(tableId) && whereClauseForDeletion == old(whereClauseForDeletion)
      ensures fieldsToReturn == old(fieldsToReturn)
      ensures State() == Step(old(State()), CommandCall.AddNewRecord(config))
    {
      var recordBuilder := new RecordBuilder();
      var _ := recordBuilder.AddFields(config);
      var record := recordBuilder.Build();
      records := records + [record];
      builder := this;
    }

    /** As AddNewRecord, with field 3 set to the record id after the
        configuration has run. */
    method UpdateRecord(recordId: int32, config: seq<FieldAssignment>) returns (builder: QuickbaseCommandBuilder)
      modifies this
      ensures builder == this
      ensures records == old(records) + [UpdatedRecord(recordId, config)]
      ensures tableId == old(tableId) && whereClauseForDeletion == old(whereClauseForDeletion)
      ensures fieldsToReturn == old(fieldsToReturn)
      ensures State() == Step(old(State()), CommandCall.UpdateRecord(recordId, config))
    {
      var recordBuilder := new RecordBuilder();
      var _ := recordBuilder.AddFields(config);
      var _ := recordBuilder.AddField(RecordIdFieldId, NonNull(Text(ToDecimalString(recordId))));
      var record := recordBuilder.Build();
      var all := config + [FieldAssignment(RecordIdFieldId, NonNull(Text(ToDecimalString(recordId))))];
      assert all[..|all| - 1] == config;
      records := records + [record];
      builder := this;
    }

    method WithDeletionCriteria(whereClause: string) returns (builder: QuickbaseCommandBuilder)
      modifies this
      ensures builder == this
      ensures whereClauseForDeletion == NonNull(whereClause)
      ensures tableId == old(tableId) && records == old(records) && fieldsToReturn == old(fieldsToReturn)
      ensures State() == Step(old(State()), CommandCall.WithDeletionCriteria(whereClause))
    {
      whereClauseForDeletion := NonNull(whereClause);
      builder := this;
    }

    /** The insert/update command: the object initializer replaces all three
        property defaults, so an unset table or return-field list is null. */
    method BuildInsertUpdateCommand() returns (request: InsertOrUpdateRecordRequest)
      ensures request.to == tableId
      ensures request.data == NonNull(records)
      ensures request.fieldsToReturn == fieldsToReturn
    {
      request := DefaultInsertOrUpdateRecordRequest.(to := tableId, data := NonNull(records), fieldsToReturn := fieldsToReturn);
    }

    /** The delete command: table and criteria only. */
    method BuildDeleteCommand() returns (request: DeleteRecordRequest)
      ensures request.from == tableId
      ensures request.where == whereClauseForDeletion
    {
      request := DeleteRecordRequest(tableId, whereClauseForDeletion);
    }
  }

  /** AddField(5, "a") then AddField(5, "b") leaves one entry, "5" holding "b". */
  method LastFieldWriteWins() returns (record: Record)
    ensures record == map["5" := FieldValue(NonNull(Text("b")))]
  {
    var recordBuilder := new RecordBuilder();
    var _ := recordBuilder.AddField(5, NonNull(Text("a")));
    var _ := recordBuilder.AddField(5, NonNull(Text("b")));
    record := recordBuilder.Build();
    assert FieldKey(5) == "5";
  }

  /** ForTable and WithDeletionCriteria on a new builder, then BuildDeleteCommand. */
  method DeleteCommandOfNewBuilder(tableId: string, whereClause: string) returns (request: DeleteRecordRequest)
    ensures request == DeleteRecordRequest(NonNull(tableId), NonNull(whereClause))
  {
    var builder := new QuickbaseCommandBuilder();
    var _ := builder.ForTable(tableId);
    var _ := builder.WithDeletionCriteria(whereClause);
    request := builder.BuildDeleteCommand();
  }

  /** A new builder builds an insert/update command with no table, no records
      and no return fields; the property defaults do not survive. */
  method EmptyInsertUpdateCommand() returns (request: InsertOrUpdateRecordRequest)
    ensures request == InsertOrUpdateRecordRequest(Null, NonNull([]), Null)
    ensures request != DefaultInsertOrUpdateRecordRequest
  {
    var builder := new QuickbaseCommandBuilder();
    request := builder.BuildInsertUpdateCommand();
  }
}
