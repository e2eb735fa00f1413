/** The table-driven state machine: an event takes the first row whose source, event and condition fit. */
module Fsm {
  import opened Prelude

  // `src` and `target` are `None` for "any state" and "same state".
  datatype Entry<S, E, G, A, B> = Entry(src: Option<S>, event: E, guard: G, before: A, target: Option<S>, after: B)

  predicate Fits<S(==), E(==), G, A, B>(row: Entry<S, E, G, A, B>, s: S, e: E, holds: G -> bool) {
    (row.src.None? || row.src.value == s) && row.event == e && holds(row.guard)
  }

  function First<S(==), E(==), G, A, B>(table: seq<Entry<S, E, G, A, B>>, s: S, e: E, holds: G -> bool)
    : Option<Entry<S, E, G, A, B>>
  {
    if table == [] then None
    else if Fits(table[0], s, e, holds) then Some(table[0])
    else First(table[1..], s, e, holds)
  }

  /** The row taken fits, and no earlier row does. */
  lemma {:induction false} FirstAt<S, E, G, A, B>(table: seq<Entry<S, E, G, A, B>>, s: S, e: E, holds: G -> bool)
    returns (k: nat)
    requires First(table, s, e, holds).Some?
    ensures k < |table| && table[k] == First(table, s, e, holds).value && Fits(table[k], s, e, holds)
    ensures forall j | 0 <= j < k :: !Fits(table[j], s, e, holds)
  {
    if Fits(table[0], s, e, holds) {
      k := 0;
    } else {
      var i := FirstAt(table[1..], s, e, holds);
      assert forall j | 1 <= j < |table| :: table[j] == table[1..][j - 1];
      k := i + 1;
    }
  }

  /** The first row that fits is taken. */
  lemma {:induction false} FirstIs<S, E, G, A, B>(table: seq<Entry<S, E, G, A, B>>, s: S, e: E, holds: G -> bool, k: nat)
    requires k < |table| && Fits(table[k], s, e, holds) && forall j | 0 <= j < k :: !Fits(table[j], s, e, holds)
    ensures First(table, s, e, holds) == Some(table[k])
  {
    if k > 0 {
      assert forall j | 1 <= j < |table| :: table[j] == table[1..][j - 1];
      FirstIs(table[1..], s, e, holds, k - 1);
    }
  }

  /** An event without a fitting row is ignored. */
  lemma {:induction false} FirstIsNone<S, E, G, A, B>(table: seq<Entry<S, E, G, A, B>>, s: S, e: E, holds: G -> bool)
    ensures First(table, s, e, holds).None? <==> forall i | 0 <= i < |table| :: !Fits(table[i], s, e, holds)
  {
    if table != [] && !Fits(table[0], s, e, holds) {
      FirstIsNone(table[1..], s, e, holds);
      assert forall i | 1 <= i < |table| :: table[i] == table[1..][i - 1];
    }
  }

  /** The search loop of `perform_transition`. */
  method Select<S(==), E(==), G, A, B>(table: seq<Entry<S, E, G, A, B>>, s: S, e: E, holds: G -> bool)
    returns (row: Option<Entry<S, E, G, A, B>>)
    ensures row == First(table, s, e, holds)
  {
    var i := 0;
    while i < |table|
      invariant i <= |table| && First(table, s, e, holds) == First(table[i..], s, e, holds)
    {
      assert table[i..][1..] == table[i + 1..];
      if (table[i].src.None? || table[i].src.value == s) && table[i].event == e && holds(table[i].guard) {
        return Some(table[i]);
      }
      i := i + 1;
    }
    return None;
  }
}
