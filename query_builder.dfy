/** The fluent builder of record queries. */
module QueryBuilder {
  import opened CSharp
  import opened Models
  import opened Requests
  import opened Histories

  /** What a query builder holds between calls. The sort and group lists stay
      null until their first call creates them. */
  datatype QueryState = QueryState(
    from: Nullable<string>,
    select: Nullable<seq<int32>>,
    where: Nullable<string>,
    sortBy: Nullable<seq<SortByItem>>,
    groupBy: Nullable<seq<GroupByItem>>)

  const InitialQueryState: QueryState := QueryState(Null, Null, Null, Null, Null)

  /** The state-changing calls of the query builder. */
  datatype QueryCall =
    | From(table: string)
    | Select(fieldIds: seq<int32>)
    | Where(filter: string)
    | SortBy(sortFieldId: int32, order: string)
    | GroupBy(groupFieldId: int32, grouping: string)

  /** `list` with `item` added at the end, creating the list when it is null. */
  function Appended<T>(list: Nullable<seq<T>>, item: T): Nullable<seq<T>>
  {
    NonNull((if list.Null? then [] else list.value) + [item])
  }

  /** `list` with `items` added at the end; a null list stays null when there
      is nothing to add. */
  function AppendedAll<T>(list: Nullable<seq<T>>, items: seq<T>): Nullable<seq<T>>
  {
    if items == [] then list else NonNull((if list.Null? then [] else list.value) + items)
  }

  /** The effect of one call. */
  function Step(s: QueryState, c: QueryCall): QueryState
  {
    match c
    case From(table) => s.(from := NonNull(table))
    case Select(fieldIds) => s.(select := NonNull(fieldIds))
    case Where(filter) => s.(where := NonNull(filter))
    case SortBy(fieldId, order) => s.(sortBy := Appended(s.sortBy, SortByItem(fieldId, order)))
    case GroupBy(fieldId, grouping) => s.(groupBy := Appended(s.groupBy, GroupByItem(fieldId, grouping)))
  }

  /** The effect of a sequence of calls, first to last. */
  function Replay(s: QueryState, calls: seq<QueryCall>): QueryState
    decreases |calls|
  {
    if calls == [] then s else Step(Replay(s, calls[..|calls| - 1]), calls[|calls| - 1])
  }

  function FromSetBy(c: QueryCall): Nullable<string>
  {
    if c.From? then NonNull(c.table) else Null
  }

  function SelectSetBy(c: QueryCall): Nullable<seq<int32>>
  {
    if c.Select? then NonNull(c.fieldIds) else Null
  }

  function WhereSetBy(c: QueryCall): Nullable<string>
  {
    if c.Where? then NonNull(c.filter) else Null
  }

  /** The sort items the calls add, in call order. */
  function SortItemsOf(calls: seq<QueryCall>): seq<SortByItem>
    decreases |calls|
  {
    if calls == [] then []
    else
      var c := calls[|calls| - 1];
      SortItemsOf(calls[..|calls| - 1]) + (if c.SortBy? then [SortByItem(c.sortFieldId, c.order)] else [])
  }

  /** The group items the calls add, in call order. */
  function GroupItemsOf(calls: seq<QueryCall>): seq<GroupByItem>
    decreases |calls|
  {
    if calls == [] then []
    else
      var c := calls[|calls| - 1];
      GroupItemsOf(calls[..|calls| - 1]) + (if c.GroupBy? then [GroupByItem(c.groupFieldId, c.grouping)] else [])
  }

  /** After any sequence of calls: From, Select and Where fields hold what
      the last such call gave (Select replaces, it does not append), and the
      sort and group lists are the earlier ones extended by one item per
      SortBy or GroupBy call, in call order, and still null if there was none. */
  lemma {:induction false} ReplayQueryCalls(s: QueryState, calls: seq<QueryCall>)
    ensures Replay(s, calls).from == LastSet(calls, FromSetBy, s.from)
    ensures Replay(s, calls).select == LastSet(calls, SelectSetBy, s.select)
    ensures Replay(s, calls).where == LastSet(calls, WhereSetBy, s.where)
    ensures Replay(s, calls).sortBy == AppendedAll(s.sortBy, SortItemsOf(calls))
    ensures Replay(s, calls).groupBy == AppendedAll(s.groupBy, GroupItemsOf(calls))
    decreases |calls|
  {
    if calls != [] {
      var prefix := calls[..|calls| - 1];
      var c := calls[|calls| - 1];
      ReplayQueryCalls(s, prefix);
      AppendedAllTwice(s.sortBy, SortItemsOf(prefix), if c.SortBy? then [SortByItem(c.sortFieldId, c.order)] else []);
      AppendedAllTwice(s.groupBy, GroupItemsOf(prefix), if c.GroupBy? then [GroupByItem(c.groupFieldId, c.grouping)] else []);
    }
  }

  /** Adding two runs of items one after the other is adding their concatenation. */
  lemma AppendedAllTwice<T>(list: Nullable<seq<T>>, first: seq<T>, second: seq<T>)
    ensures AppendedAll(AppendedAll(list, first), second) == AppendedAll(list, first + second)
    ensures |second| == 1 ==> AppendedAll(list, second) == Appended(list, second[0])
  {
    if |second| == 1 {
      assert second == [second[0]];
    }
    if first == [] {
      assert first + second == second;
    } else if second == [] {
      assert first + second == first;
    } else {
      var base := if list.Null? then [] else list.value;
      assert (base + first) + second == base + (first + second);
    }
  }

  /** n SortBy calls in a row give a list of n items holding their pairs in
      call order. */
  lemma {:induction false} SortByCallsInOrder(calls: seq<QueryCall>)
    requires forall i :: 0 <= i < |calls| ==> calls[i].SortBy?
    ensures |SortItemsOf(calls)| == |calls|
    ensures forall i :: 0 <= i < |calls| ==>
      SortItemsOf(calls)[i] == SortByItem(calls[i].sortFieldId, calls[i].order)
    decreases |calls|
  {
    if calls != [] {
      var prefix := calls[..|calls| - 1];
      assert forall i :: 0 <= i < |prefix| ==> prefix[i] == calls[i];
      SortByCallsInOrder(prefix);
    }
  }

  /** n GroupBy calls in a row give a list of n items holding their pairs in
      call order. */
  lemma {:induction false} GroupByCallsInOrder(calls: seq<QueryCall>)
    requires forall i :: 0 <= i < |calls| ==> calls[i].GroupBy?
    ensures |GroupItemsOf(calls)| == |calls|
    ensures forall i :: 0 <= i < |calls| ==>
      GroupItemsOf(calls)[i] == GroupByItem(calls[i].groupFieldId, calls[i].grouping)
    decreases |calls|
  {
    if calls != [] {
      var prefix := calls[..|calls| - 1];
      assert forall i :: 0 <= i < |prefix| ==> prefix[i] == calls[i];
      GroupByCallsInOrder(prefix);
    }
  }

  /** On a new builder the sort list is null exactly when no SortBy call was made. */
  lemma {:induction false} SortListAbsentUntilFirstCall(calls: seq<QueryCall>)
    ensures Replay(InitialQueryState, calls).sortBy.Null? <==> (forall i :: 0 <= i < |calls| ==> !calls[i].SortBy?)
    decreases |calls|
  {
    ReplayQueryCalls(InitialQueryState, calls);
    if calls != [] {
      var prefix := calls[..|calls| - 1];
      assert forall i :: 0 <= i < |prefix| ==> prefix[i] == calls[i];
      SortListAbsentUntilFirstCall(prefix);
      ReplayQueryCalls(InitialQueryState, prefix);
    }
  }

  /** On a new builder the group list is null exactly when no GroupBy call was made. */
  lemma {:induction false} GroupListAbsentUntilFirstCall(calls: seq<QueryCall>)
    ensures Replay(InitialQueryState, calls).groupBy.Null? <==> (forall i :: 0 <= i < |calls| ==> !calls[i].GroupBy?)
    decreases |calls|
  {
    ReplayQueryCalls(InitialQueryState, calls);
    if calls != [] {
      var prefix := calls[..|calls| - 1];
      assert forall i :: 0 <= i < |prefix| ==> prefix[i] == calls[i];
      GroupListAbsentUntilFirstCall(prefix);
      ReplayQueryCalls(InitialQueryState, prefix);
    }
  }

  /** The fluent query builder. */
  class QuickbaseQueryBuilder {
    var from: Nullable<string>
    var select: Nullable<seq<int32>>
    var where: Nullable<string>
    var sortBy: Nullable<seq<SortByItem>>
    var groupBy: Nullable<seq<GroupByItem>>

    function State(): QueryState
      reads this
    {
      QueryState(from, select, where, sortBy, groupBy)
    }

    constructor ()
      ensures State() == InitialQueryState
    {
      from := Null;
      select := Null;
      where := Null;
      sortBy := Null;
      groupBy := Null;
    }

    method From(from: string) returns (builder: QuickbaseQueryBuilder)
      modifies this
      ensures builder == this
      ensures this.from == NonNull(from)
      ensures select == old(select) && where == old(where)
      ensures sortBy == old(sortBy) && groupBy == old(groupBy)
      ensures State() == Step(old(State()), QueryCall.From(from))
    {
      this.from := NonNull(from);
      builder := this;
    }

    /** Replaces the selection by a new list of the arguments, in order. */
    method Select(fields: seq<int32>) returns (builder: QuickbaseQueryBuilder)
      modifies this
      ensures builder == this
      ensures select == NonNull(fields)
      ensures from == old(from) && where == old(where)
      ensures sortBy == old(sortBy) && groupBy == old(groupBy)
      ensures State() == Step(old(State()), QueryCall.Select(fields))
    {
      select := NonNull(fields);
      builder := this;
    }

    method Where(where: string) returns (builder: QuickbaseQueryBuilder)
      modifies this
      ensures builder == this
      ensures this.where == NonNull(where)
      ensures from == old(from) && select == old(select)
      ensures sortBy == old(sortBy) && groupBy == old(groupBy)
      ensures State() == Step(old(State()), QueryCall.Where(where))
    {
      this.where := NonNull(where);
      builder := this;
    }

    /** Creates the sort list on first use, then adds one item at its end. */
    method SortBy(fieldId: int32, order: string) returns (builder: QuickbaseQueryBuilder)
      modifies this
      ensures builder == this
      ensures sortBy.NonNull?
      ensures sortBy.value == (if old(sortBy).Null? then [] else old(sortBy).value) + [SortByItem(fieldId, order)]
      ensures from == old(from) && select == old(select) && where == old(where)
      ensures groupBy == old(groupBy)
      ensures State() == Step(old(State()), QueryCall.SortBy(fieldId, order))
    {
      if sortBy.Null? {
        sortBy := NonNull([]);
      }
      sortBy := NonNull(sortBy.value + [SortByItem(fieldId, order)]);
      builder := this;
    }

    /** Creates the group list on first use, then adds one item at its end. */
    method GroupBy(fieldId: int32, grouping: string) returns (builder: QuickbaseQueryBuilder)
      modifies this
      ensures builder == this
      ensures groupBy.NonNull?
      ensures groupBy.value == (if old(groupBy).Null? then [] else old(groupBy).value) + [GroupByItem(fieldId, grouping)]
      ensures from == old(from) && select == old(select) && where == old(where)
      ensures sortBy == old(sortBy)
      ensures State() == Step(old(State()), QueryCall.GroupBy(fieldId, grouping))
    {
      if groupBy.Null? {
        groupBy := NonNull([]);
      }
      groupBy := NonNull(groupBy.value + [GroupByItem(fieldId, grouping)]);
      builder := this;
    }

    /** The request carries the five accumulated fields; Options is never set. */
    method Build() returns (request: QuickbaseQueryRequest)
      ensures request.from == from && request.select == select && request.where == where
      ensures request.sortBy == sortBy && request.groupBy == groupBy
      ensures request.options == Null
    {
      request := QuickbaseQueryRequest(from, select, where, sortBy, groupBy, Null);
    }
  }

  /** From, Select and Where on a new builder, then Build: exactly the values
      given come back, with no sort, grouping or options. */
  method SimpleQuery(table: string, fields: seq<int32>, filter: string) returns (request: QuickbaseQueryRequest)
    ensures request == QuickbaseQueryRequest(NonNull(table), NonNull(fields), NonNull(filter), Null, Null, Null)
  {
    var builder := new QuickbaseQueryBuilder();
    var _ := builder.From(table);
    var _ := builder.Select(fields);
    var _ := builder.Where(filter);
    request := builder.Build();
  }

  /** Two SortBy calls then a second From: the later table wins and both sort
      items are kept in call order. */
  method SortedQuery(first: string, second: string, a: int32, b: int32) returns (request: QuickbaseQueryRequest)
    ensures request.from == NonNull(second)
    ensures request.sortBy == NonNull([SortByItem(a, "ASC"), SortByItem(b, "DESC")])
    ensures request.select == Null && request.groupBy == Null
  {
    var builder := new QuickbaseQueryBuilder();
    var _ := builder.From(first);
    var _ := builder.SortBy(a, "ASC");
    var _ := builder.SortBy(b, "DESC");
    var _ := builder.From(second);
    request := builder.Build();
    assert [] + [SortByItem(a, "ASC")] + [SortByItem(b, "DESC")] == [SortByItem(a, "ASC"), SortByItem(b, "DESC")];
  }
}
