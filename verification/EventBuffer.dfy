/** The durable bounded queue between collectors and the single analysis worker: urgent findings
    first, and every hundredth claim in arrival order. */
module EventBuffer {
  import opened Wrappers

  type EventId = string

  datatype State = Pending | Processing | Done | Failed

  datatype Row = Row(id: nat, event: EventId, state: State, due: int, priority: real, received: int, attempts: nat)

  /** What a producer submits, with what the guardrails and the routine filter say of it. */
  datatype Arrival = Arrival(event: EventId, due: int, severity: real, guarded: bool, routine: bool, received: int)

  /** Queue priority of an event: guarded findings outrank, routine context drains early. */
  function Priority(severity: real, guarded: bool, routine: bool): (r: real)
    ensures r >= severity && r >= 0.0 && (guarded ==> r >= 9.0) && (routine ==> r >= 6.5)
    ensures r in {severity, if guarded then 9.0 else if routine then 6.5 else 0.0}
  {
    var floor := if guarded then 9.0 else if routine then 6.5 else 0.0;
    if severity >= floor then severity else floor
  }

  // ---- the table -------------------------------------------------------------------

  predicate Increasing(rows: seq<Row>) { forall i, j :: 0 <= i < j < |rows| ==> rows[i].id < rows[j].id }

  predicate Unique(rows: seq<Row>) { forall i, j :: 0 <= i < j < |rows| ==> rows[i].event != rows[j].event }

  predicate Queued(r: Row) { r.state in {Pending, Processing} }

  function Depth(rows: seq<Row>): nat {
    if rows == [] then 0 else Depth(rows[..|rows| - 1]) + if Queued(rows[|rows| - 1]) then 1 else 0
  }

  /** Row ids continue from the largest one present. */
  function NextId(rows: seq<Row>): nat { if rows == [] then 1 else rows[|rows| - 1].id + 1 }

  predicate Known(rows: seq<Row>, event: EventId) { exists r :: r in rows && r.event == event }

  function NewRow(rows: seq<Row>, a: Arrival): Row {
    Row(NextId(rows), a.event, Pending, a.due, Priority(a.severity, a.guarded, a.routine), a.received, 0)
  }

  function WithState(rows: seq<Row>, id: nat, state: State): (r: seq<Row>)
    ensures |r| == |rows|
    ensures forall i :: 0 <= i < |rows| ==> r[i] == if rows[i].id == id then rows[i].(state := state) else rows[i]
  {
    seq(|rows|, i requires 0 <= i < |rows| => if rows[i].id == id then rows[i].(state := state) else rows[i])
  }

  /** Restart: what was being processed is pending again; nothing else changes. */
  function Restarted(rows: seq<Row>): (r: seq<Row>)
    ensures |r| == |rows|
    ensures forall i :: 0 <= i < |rows| ==>
              r[i] == if rows[i].state == Processing then rows[i].(state := Pending) else rows[i]
  {
    seq(|rows|, i requires 0 <= i < |rows| => if rows[i].state == Processing then rows[i].(state := Pending) else rows[i])
  }

  predicate Prunable(r: Row, cutoff: int) { r.received < cutoff && !Queued(r) }

  function Pruned(rows: seq<Row>, cutoff: int): (r: seq<Row>)
    ensures forall x :: x in r <==> x in rows && (x.received >= cutoff || x.state == Pending || x.state == Processing)
  {
    if rows == [] then []
    else Pruned(rows[..|rows| - 1], cutoff) + if Prunable(rows[|rows| - 1], cutoff) then [] else [rows[|rows| - 1]]
  }

  // ---- claiming ------------------------------------------------------------------------

  predicate Ready(r: Row, now: int) { r.state == Pending && r.due <= now }

  predicate FifoBefore(a: Row, b: Row) { a.due < b.due || (a.due == b.due && a.id < b.id) }

  /** The order of a claim: arrival order, or priority first. */
  predicate Before(a: Row, b: Row, fifo: bool) {
    if fifo || a.priority == b.priority then FifoBefore(a, b) else a.priority > b.priority
  }

  /** Position of the first ready row in the order of the claim. */
  function First(rows: seq<Row>, now: int, fifo: bool): (r: Option<nat>)
    ensures r.Some? ==> r.value < |rows| && Ready(rows[r.value], now)
    ensures r.Some? ==> forall j :: 0 <= j < |rows| && Ready(rows[j], now) ==> !Before(rows[j], rows[r.value], fifo)
    ensures r.None? ==> forall j :: 0 <= j < |rows| ==> !Ready(rows[j], now)
  {
    if rows == [] then None
    else
      var n := |rows| - 1;
      var best := First(rows[..n], now, fifo);
      if Ready(rows[n], now) && (best.None? || Before(rows[n], rows[best.value], fifo)) then Some(n) else best
  }

  /** One claim in a hundred is in arrival order. */
  predicate FifoTurn(claims: nat) { claims % 100 == 99 }

  datatype Buffer = Buffer(rows: seq<Row>, claims: nat)

  function Claimed(b: Buffer, now: int): Option<nat> { First(b.rows, now, FifoTurn(b.claims)) }

  function AfterClaim(b: Buffer, now: int): Buffer {
    match Claimed(b, now)
    case None => b
    case Some(i) => Buffer(b.rows[i := b.rows[i].(state := Processing, attempts := b.rows[i].attempts + 1)], b.claims + 1)
  }

  // ---- submitting --------------------------------------------------------------------------

  datatype Submitted = Accepted | Duplicate | Full

  function Enqueued(rows: seq<Row>, capacity: nat, a: Arrival): (seq<Row>, Submitted) {
    if Known(rows, a.event) then (rows, Duplicate)
    else if Depth(rows) >= capacity then (rows, Full)
    else (rows + [NewRow(rows, a)], Accepted)
  }

  function AppendAll(rows: seq<Row>, arrivals: seq<Arrival>, k: nat): seq<Row>
    requires k <= |arrivals|
  {
    if k == 0 then rows
    else
      var before := AppendAll(rows, arrivals, k - 1);
      before + [NewRow(before, arrivals[k - 1])]
  }

  predicate AllNew(rows: seq<Row>, arrivals: seq<Arrival>) {
    && (forall a :: a in arrivals ==> !Known(rows, a.event))
    && forall i, j :: 0 <= i < j < |arrivals| ==> arrivals[i].event != arrivals[j].event
  }

  /** A batch goes in whole or not at all; a repeated event id aborts it. */
  function EnqueuedMany(rows: seq<Row>, capacity: nat, arrivals: seq<Arrival>): (seq<Row>, Submitted) {
    if Depth(rows) + |arrivals| > capacity then (rows, Full)
    else if !AllNew(rows, arrivals) then (rows, Duplicate)
    else (AppendAll(rows, arrivals, |arrivals|), Accepted)
  }

  // ---- the service object ---------------------------------------------------------------------

  class Store {
    const capacity: nat
    var rows: seq<Row>
    var claims: nat

    ghost function State(): Buffer
      reads this
    {
      Buffer(rows, claims)
    }

    /** Opening the database returns interrupted work to the queue and restarts the claim count. */
    constructor (rows: seq<Row>, capacity: nat)
      ensures this.capacity == capacity && State() == Buffer(Restarted(rows), 0)
    {
      this.capacity := capacity;
      this.rows := Restarted(rows);
      this.claims := 0;
    }

    method Enqueue(a: Arrival) returns (r: Submitted)
      modifies this`rows
      ensures (rows, r) == Enqueued(old(rows), capacity, a)
    {
      if Known(rows, a.event) { return Duplicate; }
      if Depth(rows) >= capacity { return Full; }
      rows := rows + [NewRow(rows, a)];
      return Accepted;
    }

    method EnqueueMany(arrivals: seq<Arrival>) returns (r: Submitted)
      modifies this`rows
      ensures (rows, r) == EnqueuedMany(old(rows), capacity, arrivals)
    {
      if Depth(rows) + |arrivals| > capacity { return Full; }
      if !AllNew(rows, arrivals) { return Duplicate; }
      ghost var before := rows;
      for i := 0 to |arrivals|
        invariant rows == AppendAll(before, arrivals, i)
      {
        rows := rows + [NewRow(rows, arrivals[i])];
      }
      return Accepted;
    }

    method Claim(now: int) returns (r: Option<Row>)
      modifies this
      ensures State() == AfterClaim(old(State()), now)
      ensures r == match Claimed(old(State()), now) case None => None case Some(i) => Some(old(rows)[i])
    {
      var i := First(rows, now, claims % 100 == 99);
      if i.None? { return None; }
      r := Some(rows[i.value]);
      claims := claims + 1;
      rows := rows[i.value := rows[i.value].(state := Processing, attempts := rows[i.value].attempts + 1)];
    }

    method Finish(id: nat)
      modifies this`rows
      ensures rows == WithState(old(rows), id, Done)
    {
      rows := WithState(rows, id, Done);
    }

    method Fail(id: nat)
      modifies this`rows
      ensures rows == WithState(old(rows), id, Failed)
    {
      rows := WithState(rows, id, Failed);
    }

    method Prune(cutoff: int)
      modifies this`rows
      ensures rows == Pruned(old(rows), cutoff)
    {
      rows := Pruned(rows, cutoff);
    }
  }
}
