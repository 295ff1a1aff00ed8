/** Facts about a sequence of builder calls that do not depend on the builder:
    which call last set a field. */
module Histories {
  import opened CSharp

  /** The value the last call that sets a field gave it, where `pick(c)` is
      what call `c` sets the field to (`Null` when `c` leaves it alone), or
      `initial` when no call sets it. */
  function LastSet<C, T>(calls: seq<C>, pick: C -> Nullable<T>, initial: Nullable<T>): Nullable<T>
    decreases |calls|
  {
    if calls == [] then initial
    else if pick(calls[|calls| - 1]).NonNull? then pick(calls[|calls| - 1])
    else LastSet(calls[..|calls| - 1], pick, initial)
  }

  /** The last call that sets the field decides its value. */
  lemma {:induction false} LastSetIsLastCall<C, T>(calls: seq<C>, pick: C -> Nullable<T>, initial: Nullable<T>, i: nat)
    requires i < |calls| && pick(calls[i]).NonNull?
    requires forall j :: i < j < |calls| ==> pick(calls[j]).Null?
    ensures LastSet(calls, pick, initial) == pick(calls[i])
    decreases |calls|
  {
    if i < |calls| - 1 {
      var prefix := calls[..|calls| - 1];
      assert forall j :: i < j < |prefix| ==> prefix[j] == calls[j];
      LastSetIsLastCall(prefix, pick, initial, i);
    }
  }

  /** When no call sets the field it keeps the value it had. */
  lemma {:induction false} LastSetNoCall<C, T>(calls: seq<C>, pick: C -> Nullable<T>, initial: Nullable<T>)
    requires forall j :: 0 <= j < |calls| ==> pick(calls[j]).Null?
    ensures LastSet(calls, pick, initial) == initial
    decreases |calls|
  {
    if calls != [] {
      var prefix := calls[..|calls| - 1];
      assert forall j :: 0 <= j < |prefix| ==> prefix[j] == calls[j];
      LastSetNoCall(prefix, pick, initial);
    }
  }
}
