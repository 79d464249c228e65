/** The table of consumed events: what it lets through to the projector, counted over any history. */
module ConsumerDedup {

  /** A store, and an event it knows as consumed. */
  type Row = (nat, nat)

  /** A call of the projector fails, or succeeds and is marked in the table or not. */
  datatype Outcome = Failed | Unmarked | Marked

  datatype Act = Call(row: Row, outcome: Outcome) | Remove(rows: set<Row>)

  function After(consumed: set<Row>, a: Act): set<Row> {
    match a
    case Call(row, outcome) => if outcome == Marked then consumed + {row} else consumed
    case Remove(rows) => consumed - rows
  }

  function Replay(consumed: set<Row>, acts: seq<Act>): set<Row> {
    if acts == [] then consumed else After(Replay(consumed, acts[..|acts| - 1]), acts[|acts| - 1])
  }

  /** The projector is called for unknown events only. */
  predicate Legal(consumed: set<Row>, acts: seq<Act>) {
    acts != [] ==>
      var front, a := acts[..|acts| - 1], acts[|acts| - 1];
      Legal(consumed, front) && (a.Call? ==> a.row !in Replay(consumed, front))
  }

  function Bit(b: bool): nat { if b then 1 else 0 }

  /** How often the projector was called for this row at all. */
  function Calls(acts: seq<Act>, row: Row): nat {
    if acts == [] then 0
    else Calls(acts[..|acts| - 1], row) + (var a := acts[|acts| - 1]; Bit(a.Call? && a.row == row))
  }

  /** How often it succeeded. */
  function Handles(acts: seq<Act>, row: Row): nat {
    if acts == [] then 0
    else Handles(acts[..|acts| - 1], row) + (var a := acts[|acts| - 1]; Bit(a.Call? && a.row == row && a.outcome != Failed))
  }

  function LostMarks(acts: seq<Act>, row: Row): nat {
    if acts == [] then 0
    else LostMarks(acts[..|acts| - 1], row) + (var a := acts[|acts| - 1]; Bit(a.Call? && a.row == row && a.outcome == Unmarked))
  }

  function Removals(acts: seq<Act>, row: Row): nat {
    if acts == [] then 0
    else Removals(acts[..|acts| - 1], row) + (var a := acts[|acts| - 1]; Bit(a.Remove? && row in a.rows))
  }

  /** Removals that found the row. */
  function TakenBack(consumed: set<Row>, acts: seq<Act>, row: Row): nat {
    if acts == [] then 0
    else
      var front, a := acts[..|acts| - 1], acts[|acts| - 1];
      TakenBack(consumed, front, row) + Bit(a.Remove? && row in a.rows && row in Replay(consumed, front))
  }

  /** How often an event was handled, whichever store knows it. */
  function HandlesOfEvent(acts: seq<Act>, e: nat): nat {
    if acts == [] then 0
    else HandlesOfEvent(acts[..|acts| - 1], e) + (var a := acts[|acts| - 1]; Bit(a.Call? && a.row.1 == e && a.outcome != Failed))
  }

  /** An event is handled exactly once for each lost mark, once for each removal of its row, and once if the row came to be. */
  lemma {:induction false} HandlesAreCountedExactly(consumed: set<Row>, acts: seq<Act>, row: Row)
    requires Legal(consumed, acts)
    ensures Handles(acts, row) + Bit(row in consumed)
         == LostMarks(acts, row) + TakenBack(consumed, acts, row) + Bit(row in Replay(consumed, acts))
    ensures TakenBack(consumed, acts, row) <= Removals(acts, row)
  {
    if acts != [] { HandlesAreCountedExactly(consumed, acts[..|acts| - 1], row); }
  }

  /** A row that is there is never called for again, until it is removed. */
  lemma {:induction false} KnownIsNotCalled(consumed: set<Row>, acts: seq<Act>, row: Row)
    requires Legal(consumed, acts) && row in consumed && Removals(acts, row) == 0
    ensures Calls(acts, row) == 0 && Handles(acts, row) == 0 && row in Replay(consumed, acts)
  {
    if acts != [] { KnownIsNotCalled(consumed, acts[..|acts| - 1], row); }
  }

  lemma {:induction false} ReplayAppend(consumed: set<Row>, acts: seq<Act>, more: seq<Act>)
    ensures Replay(consumed, acts + more) == Replay(Replay(consumed, acts), more)
    ensures Legal(consumed, acts + more) <==> Legal(consumed, acts) && Legal(Replay(consumed, acts), more)
    decreases |more|
  {
    if more == [] {
      assert acts + more == acts;
    } else {
      assert (acts + more)[..|acts + more| - 1] == acts + more[..|more| - 1];
      ReplayAppend(consumed, acts, more[..|more| - 1]);
    }
  }

  lemma {:induction false} CountsAppend(acts: seq<Act>, more: seq<Act>, row: Row)
    ensures Removals(acts + more, row) == Removals(acts, row) + Removals(more, row)
    ensures HandlesOfEvent(acts + more, row.1) == HandlesOfEvent(acts, row.1) + HandlesOfEvent(more, row.1)
    decreases |more|
  {
    if more == [] {
      assert acts + more == acts;
    } else {
      assert (acts + more)[..|acts + more| - 1] == acts + more[..|more| - 1];
      CountsAppend(acts, more[..|more| - 1], row);
    }
  }

  lemma {:induction false} CallsRemoveNothing(acts: seq<Act>, row: Row)
    requires forall k :: 0 <= k < |acts| ==> acts[k].Call?
    ensures Removals(acts, row) == 0
  {
    if acts != [] { CallsRemoveNothing(acts[..|acts| - 1], row); }
  }

  /** While one store knows an event, it is handled for that store's row alone. */
  lemma {:induction false} OneStoreKnowsIt(acts: seq<Act>, row: Row)
    requires forall k :: 0 <= k < |acts| && acts[k].Call? && acts[k].row.1 == row.1 ==> acts[k].row == row
    ensures HandlesOfEvent(acts, row.1) == Handles(acts, row)
  {
    if acts != [] { OneStoreKnowsIt(acts[..|acts| - 1], row); }
  }
}
