/**
 * The alerts dashboard: it loads the `alerts` table newest first and then puts every row the
 * realtime channel reports as inserted in front of the list. The query's answer and the
 * inserted rows are inputs.
 */
module Dashboard {
  import opened Wrappers

  /** An `alerts` row as the table shows it. */
  datatype AlertRow = AlertRow(id: string, latitude: string, longitude: string, status: string, createdAt: string)

  /** The answer of the initial query: its `data` (null is possible) or its `error`. */
  datatype FetchResult = Fetched(data: Option<seq<AlertRow>>) | FetchFailed(error: string)

  /** The list `fetchAlerts` leaves: the data (an empty list for null), or the old list on error. */
  function AfterFetch(prev: seq<AlertRow>, result: FetchResult): (next: seq<AlertRow>)
    ensures result.FetchFailed? ==> next == prev
    ensures result.Fetched? && result.data.None? ==> next == []
    ensures result.Fetched? && result.data.Some? ==> next == result.data.value
  {
    match result
    case FetchFailed(_) => prev
    case Fetched(data) => if data.Some? then data.value else []
  }

  /** `[payload.new, ...prev]`. */
  function Prepend(row: AlertRow, prev: seq<AlertRow>): (next: seq<AlertRow>)
    ensures |next| == |prev| + 1 && next[0] == row && next[1..] == prev
  {
    [row] + prev
  }

  /** The list after the inserts arrive one by one, first to last. */
  function AfterInserts(prev: seq<AlertRow>, arrivals: seq<AlertRow>): seq<AlertRow>
    decreases arrivals
  {
    if arrivals == [] then prev else AfterInserts(Prepend(arrivals[0], prev), arrivals[1..])
  }

  /** The rows in the opposite order. */
  function Reversed(s: seq<AlertRow>): (r: seq<AlertRow>)
    ensures |r| == |s|
    ensures forall i :: 0 <= i < |s| ==> r[i] == s[|s| - 1 - i]
  {
    if s == [] then [] else Reversed(s[1..]) + [s[0]]
  }

  class AlertList {
    var alerts: seq<AlertRow>

    constructor ()
      ensures alerts == []
    {
      alerts := [];
    }

    /** `fetchAlerts` once the query has answered. */
    method OnFetch(result: FetchResult)
      modifies this
      ensures alerts == AfterFetch(old(alerts), result)
    {
      match result {
        case FetchFailed(_) =>
        case Fetched(data) =>
          alerts := if data.Some? then data.value else [];
      }
    }

    /** The INSERT handler of `alerts-channel`. */
    method OnInsert(row: AlertRow)
      modifies this
      ensures alerts == Prepend(row, old(alerts))
    {
      alerts := [row] + alerts;
    }
  }

  /** Inserted rows come first, newest first, ahead of every row already shown, in order. */
  lemma {:induction false} InsertsNewestFirst(prev: seq<AlertRow>, arrivals: seq<AlertRow>)
    ensures AfterInserts(prev, arrivals) == Reversed(arrivals) + prev
    decreases arrivals
  {
    if arrivals != [] {
      InsertsNewestFirst(Prepend(arrivals[0], prev), arrivals[1..]);
      assert Reversed(arrivals) == Reversed(arrivals[1..]) + [arrivals[0]];
      assert Reversed(arrivals[1..]) + ([arrivals[0]] + prev) == Reversed(arrivals) + prev;
    }
  }

  /** Inserts never drop or reorder a row already shown: the old list is the tail of the new. */
  lemma InsertsKeepRows(prev: seq<AlertRow>, arrivals: seq<AlertRow>)
    ensures |AfterInserts(prev, arrivals)| == |arrivals| + |prev|
    ensures AfterInserts(prev, arrivals)[|arrivals|..] == prev
    ensures forall r :: r in arrivals ==> r in AfterInserts(prev, arrivals)
  {
    InsertsNewestFirst(prev, arrivals);
    var next := AfterInserts(prev, arrivals);
    assert next[|arrivals|..] == prev;
    forall r | r in arrivals
      ensures r in next
    {
      var i :| 0 <= i < |arrivals| && arrivals[i] == r;
      assert next[|arrivals| - 1 - i] == r;
    }
  }

  /** A failed fetch after some inserts keeps them; a successful one replaces the whole list. */
  lemma FetchAfterInserts(prev: seq<AlertRow>, arrivals: seq<AlertRow>, error: string, data: Option<seq<AlertRow>>)
    ensures AfterFetch(AfterInserts(prev, arrivals), FetchFailed(error)) == Reversed(arrivals) + prev
    ensures AfterFetch(AfterInserts(prev, arrivals), Fetched(data)) == (if data.Some? then data.value else [])
  {
    InsertsNewestFirst(prev, arrivals);
  }
}
