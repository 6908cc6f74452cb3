/** What the queue keeps over every run, and how long a ready event can be passed over. */
module EventBufferRuns {
  import opened EventBuffer

  datatype Op = Enqueuing(a: Arrival)
              | EnqueuingMany(arrivals: seq<Arrival>)
              | Claiming(now: int)
              | Finishing(id: nat)
              | Failing(id: nat)
              | Pruning(cutoff: int)
              | Restarting

  function Apply(b: Buffer, capacity: nat, op: Op): Buffer {
    match op
    case Enqueuing(a) => b.(rows := Enqueued(b.rows, capacity, a).0)
    case EnqueuingMany(arrivals) => b.(rows := EnqueuedMany(b.rows, capacity, arrivals).0)
    case Claiming(now) => AfterClaim(b, now)
    case Finishing(id) => b.(rows := WithState(b.rows, id, Done))
    case Failing(id) => b.(rows := WithState(b.rows, id, Failed))
    case Pruning(cutoff) => b.(rows := Pruned(b.rows, cutoff))
    case Restarting => Buffer(Restarted(b.rows), 0)
  }

  function Run(b: Buffer, capacity: nat, ops: seq<Op>): Buffer
    decreases |ops|
  {
    if ops == [] then b else Run(Apply(b, capacity, ops[0]), capacity, ops[1..])
  }

  // ---- the invariant -----------------------------------------------------------------

  predicate Valid(rows: seq<Row>, capacity: nat) { Increasing(rows) && Unique(rows) && Depth(rows) <= capacity }

  lemma DepthStep(rows: seq<Row>, r: Row)
    ensures Depth(rows + [r]) == Depth(rows) + if Queued(r) then 1 else 0
  {
    assert (rows + [r])[..|rows|] == rows;
  }

  lemma {:induction false} DepthMonotone(a: seq<Row>, b: seq<Row>)
    requires |a| == |b| && forall i :: 0 <= i < |a| && Queued(a[i]) ==> Queued(b[i])
    ensures Depth(a) <= Depth(b)
  {
    if a != [] { DepthMonotone(a[..|a| - 1], b[..|b| - 1]); }
  }

  lemma AppendValid(rows: seq<Row>, capacity: nat, a: Arrival)
    requires Valid(rows, capacity) && !Known(rows, a.event) && Depth(rows) < capacity
    ensures Valid(rows + [NewRow(rows, a)], capacity) && Depth(rows + [NewRow(rows, a)]) == Depth(rows) + 1
  {
    DepthStep(rows, NewRow(rows, a));
    forall i | 0 <= i < |rows| ensures rows[i].event != a.event { assert rows[i] in rows; }
  }

  /** `after` holds rows of `rows` and of the first `k` arrivals. */
  predicate FromBatch(after: seq<Row>, rows: seq<Row>, arrivals: seq<Arrival>, k: nat)
    requires k <= |arrivals|
  {
    forall r :: r in after ==> r in rows || exists i :: 0 <= i < k && r.event == arrivals[i].event
  }

  lemma {:induction false} BatchHolds(rows: seq<Row>, arrivals: seq<Arrival>, k: nat)
    requires k <= |arrivals|
    ensures FromBatch(AppendAll(rows, arrivals, k), rows, arrivals, k)
  {
    if k > 0 { BatchHolds(rows, arrivals, k - 1); }
  }

  lemma NextIsNew(rows: seq<Row>, arrivals: seq<Arrival>, k: nat)
    requires k < |arrivals| && AllNew(rows, arrivals)
    ensures !Known(AppendAll(rows, arrivals, k), arrivals[k].event)
  {
    BatchHolds(rows, arrivals, k);
    assert arrivals[k] in arrivals;
  }

  lemma OneMoreValid(rows: seq<Row>, capacity: nat, arrivals: seq<Arrival>, k: nat)
    requires k < |arrivals| && !Known(AppendAll(rows, arrivals, k), arrivals[k].event)
    requires Valid(AppendAll(rows, arrivals, k), capacity) && Depth(AppendAll(rows, arrivals, k)) < capacity
    ensures Valid(AppendAll(rows, arrivals, k + 1), capacity)
    ensures Depth(AppendAll(rows, arrivals, k + 1)) == Depth(AppendAll(rows, arrivals, k)) + 1
  {
    AppendValid(AppendAll(rows, arrivals, k), capacity, arrivals[k]);
  }

  lemma {:induction false} BatchValid(rows: seq<Row>, capacity: nat, arrivals: seq<Arrival>, k: nat)
    requires Valid(rows, capacity) && AllNew(rows, arrivals) && Depth(rows) + |arrivals| <= capacity && k <= |arrivals|
    ensures Valid(AppendAll(rows, arrivals, k), capacity) && Depth(AppendAll(rows, arrivals, k)) == Depth(rows) + k
  {
    if k > 0 {
      BatchValid(rows, capacity, arrivals, k - 1);
      NextIsNew(rows, arrivals, k - 1);
      OneMoreValid(rows, capacity, arrivals, k - 1);
    }
  }

  lemma AppendOrdered(rows: seq<Row>, r: Row)
    requires Increasing(rows) && Unique(rows)
    requires forall i :: 0 <= i < |rows| ==> rows[i].id < r.id && rows[i].event != r.event
    ensures Increasing(rows + [r]) && Unique(rows + [r])
  {
  }

  lemma Below(rows: seq<Row>, kept: seq<Row>, r: Row)
    requires Increasing(rows + [r]) && Unique(rows + [r]) && forall x :: x in kept ==> x in rows
    ensures forall i :: 0 <= i < |kept| ==> kept[i].id < r.id && kept[i].event != r.event
  {
    forall i | 0 <= i < |kept| ensures kept[i].id < r.id && kept[i].event != r.event {
      assert kept[i] in kept;
      var j :| 0 <= j < |rows| && rows[j] == kept[i];
      assert (rows + [r])[j] == rows[j] && (rows + [r])[|rows|] == r;
    }
  }

  lemma {:induction false} PruneDepth(rows: seq<Row>, cutoff: int)
    ensures Depth(Pruned(rows, cutoff)) == Depth(rows)
  {
    if rows != [] {
      var kept, r := Pruned(rows[..|rows| - 1], cutoff), rows[|rows| - 1];
      PruneDepth(rows[..|rows| - 1], cutoff);
      DepthStep(kept, r);
      assert Pruned(rows, cutoff) == if Prunable(r, cutoff) then kept else kept + [r];
    }
  }

  lemma {:induction false} PruneOrdered(rows: seq<Row>, cutoff: int)
    requires Increasing(rows) && Unique(rows)
    ensures Increasing(Pruned(rows, cutoff)) && Unique(Pruned(rows, cutoff))
  {
    if rows != [] {
      var before, r := rows[..|rows| - 1], rows[|rows| - 1];
      assert rows == before + [r];
      PruneOrdered(before, cutoff);
      Below(before, Pruned(before, cutoff), r);
      AppendOrdered(Pruned(before, cutoff), r);
    }
  }

  lemma PruneKeeps(rows: seq<Row>, cutoff: int)
    requires Increasing(rows) && Unique(rows)
    ensures Increasing(Pruned(rows, cutoff)) && Unique(Pruned(rows, cutoff)) && Depth(Pruned(rows, cutoff)) == Depth(rows)
  {
    PruneDepth(rows, cutoff);
    PruneOrdered(rows, cutoff);
  }

  /** Rows that only change state, and never come back into the queue, stay valid. */
  lemma MovesValid(rows: seq<Row>, moved: seq<Row>, capacity: nat)
    requires Valid(rows, capacity) && |moved| == |rows|
    requires forall i :: 0 <= i < |rows| ==> moved[i].id == rows[i].id && moved[i].event == rows[i].event
    requires forall i :: 0 <= i < |rows| && Queued(moved[i]) ==> Queued(rows[i])
    ensures Valid(moved, capacity)
  {
    DepthMonotone(moved, rows);
  }

  lemma StepValid(b: Buffer, capacity: nat, op: Op)
    requires Valid(b.rows, capacity)
    ensures Valid(Apply(b, capacity, op).rows, capacity)
  {
    match op {
      case Enqueuing(a) =>
        if Enqueued(b.rows, capacity, a).1 == Accepted { AppendValid(b.rows, capacity, a); }
      case EnqueuingMany(arrivals) =>
        if EnqueuedMany(b.rows, capacity, arrivals).1 == Accepted { BatchValid(b.rows, capacity, arrivals, |arrivals|); }
      case Pruning(cutoff) => PruneKeeps(b.rows, cutoff);
      case Claiming(_) => MovesValid(b.rows, Apply(b, capacity, op).rows, capacity);
      case Finishing(_) => MovesValid(b.rows, Apply(b, capacity, op).rows, capacity);
      case Failing(_) => MovesValid(b.rows, Apply(b, capacity, op).rows, capacity);
      case Restarting => MovesValid(b.rows, Apply(b, capacity, op).rows, capacity);
    }
  }

  /** Over every run, restarts included: event ids are unique and the queue stays within capacity. */
  lemma {:induction false} RunValid(b: Buffer, capacity: nat, ops: seq<Op>)
    requires Valid(b.rows, capacity)
    ensures Valid(Run(b, capacity, ops).rows, capacity)
    decreases |ops|
  {
    if ops != [] {
      StepValid(b, capacity, ops[0]);
      RunValid(Apply(b, capacity, ops[0]), capacity, ops[1..]);
    }
  }

  // ---- bounded bypass -------------------------------------------------------------------

  predicate Ahead(r: Row, e: Row) { r.state == Pending && FifoBefore(r, e) }

  /** How many pending rows come before `e` in arrival order. */
  function AheadCount(rows: seq<Row>, e: Row): nat {
    if rows == [] then 0 else AheadCount(rows[..|rows| - 1], e) + if Ahead(rows[|rows| - 1], e) then 1 else 0
  }

  predicate Waits(rows: seq<Row>, e: Row) { e in rows && e.state == Pending }

  /** No restart, no arrival due before `e`, completion only of claimed rows, and `e` ready at each claim. */
  predicate Fair(b: Buffer, e: Row, op: Op) {
    match op
    case Enqueuing(a) => a.due >= e.due
    case EnqueuingMany(arrivals) => forall a :: a in arrivals ==> a.due >= e.due
    case Claiming(now) => now >= e.due
    case Finishing(id) => forall r :: r in b.rows && r.id == id ==> r.state == Processing
    case Failing(id) => forall r :: r in b.rows && r.id == id ==> r.state == Processing
    case Pruning(_) => true
    case Restarting => false
  }

  predicate FairRun(b: Buffer, capacity: nat, e: Row, ops: seq<Op>)
    decreases |ops|
  {
    ops != [] ==> Fair(b, e, ops[0]) && FairRun(Apply(b, capacity, ops[0]), capacity, e, ops[1..])
  }

  function Claims(ops: seq<Op>): nat {
    if ops == [] then 0 else (if ops[0].Claiming? then 1 else 0) + Claims(ops[1..])
  }

  /** An upper bound on the claims that can still pass `e` over. */
  function Patience(b: Buffer, e: Row): nat { 100 * AheadCount(b.rows, e) + 99 - b.claims % 100 }

  lemma AheadStep(rows: seq<Row>, r: Row, e: Row)
    ensures AheadCount(rows + [r], e) == AheadCount(rows, e) + if Ahead(r, e) then 1 else 0
  {
    assert (rows + [r])[..|rows|] == rows;
  }

  lemma {:induction false} AheadMonotone(a: seq<Row>, b: seq<Row>, e: Row)
    requires |a| == |b| && forall i :: 0 <= i < |a| && Ahead(a[i], e) ==> Ahead(b[i], e)
    ensures AheadCount(a, e) <= AheadCount(b, e)
    ensures (exists i :: 0 <= i < |a| && Ahead(b[i], e) && !Ahead(a[i], e)) ==> AheadCount(a, e) < AheadCount(b, e)
  {
    if a != [] { AheadMonotone(a[..|a| - 1], b[..|b| - 1], e); }
  }

  lemma {:induction false} AheadPruned(rows: seq<Row>, cutoff: int, e: Row)
    ensures AheadCount(Pruned(rows, cutoff), e) == AheadCount(rows, e)
  {
    if rows != [] {
      var before, r := rows[..|rows| - 1], rows[|rows| - 1];
      AheadPruned(before, cutoff, e);
      AheadStep(Pruned(before, cutoff), r, e);
      assert Pruned(before, cutoff) + [] == Pruned(before, cutoff);
    }
  }

  lemma ArrivalBehind(rows: seq<Row>, a: Arrival, e: Row)
    requires Increasing(rows) && Waits(rows, e) && a.due >= e.due
    ensures AheadCount(rows + [NewRow(rows, a)], e) == AheadCount(rows, e)
  {
    AheadStep(rows, NewRow(rows, a), e);
  }

  lemma BatchOrder(rows: seq<Row>, capacity: nat, arrivals: seq<Arrival>, k: nat)
    requires Valid(rows, capacity) && AllNew(rows, arrivals) && Depth(rows) + |arrivals| <= capacity && k <= |arrivals|
    ensures Increasing(AppendAll(rows, arrivals, k))
  {
    BatchValid(rows, capacity, arrivals, k);
  }

  lemma {:induction false} BatchBehind(rows: seq<Row>, capacity: nat, arrivals: seq<Arrival>, k: nat, e: Row)
    requires Valid(rows, capacity) && AllNew(rows, arrivals) && Depth(rows) + |arrivals| <= capacity && k <= |arrivals|
    requires Waits(rows, e) && forall a :: a in arrivals ==> a.due >= e.due
    ensures AheadCount(AppendAll(rows, arrivals, k), e) == AheadCount(rows, e) && Waits(AppendAll(rows, arrivals, k), e)
  {
    if k > 0 {
      BatchBehind(rows, capacity, arrivals, k - 1, e);
      BatchOrder(rows, capacity, arrivals, k - 1);
      ArrivalBehind(AppendAll(rows, arrivals, k - 1), arrivals[k - 1], e);
    }
  }

  /** Anything but a claim leaves `e` waiting with no more rows ahead. */
  lemma OtherStep(b: Buffer, capacity: nat, e: Row, op: Op)
    requires Valid(b.rows, capacity) && Waits(b.rows, e) && Fair(b, e, op) && !op.Claiming?
    ensures Waits(Apply(b, capacity, op).rows, e) && Patience(Apply(b, capacity, op), e) <= Patience(b, e)
  {
    match op {
      case Enqueuing(a) =>
        if Enqueued(b.rows, capacity, a).1 == Accepted { ArrivalBehind(b.rows, a, e); }
      case EnqueuingMany(arrivals) =>
        if EnqueuedMany(b.rows, capacity, arrivals).1 == Accepted { BatchBehind(b.rows, capacity, arrivals, |arrivals|, e); }
      case Pruning(cutoff) => AheadPruned(b.rows, cutoff, e);
      case Finishing(id) => CompletionStep(b.rows, e, id, Done);
      case Failing(id) => CompletionStep(b.rows, e, id, Failed);
    }
  }

  lemma CompletionStep(rows: seq<Row>, e: Row, id: nat, state: State)
    requires Waits(rows, e) && state != Pending && forall r :: r in rows && r.id == id ==> r.state == Processing
    ensures Waits(WithState(rows, id, state), e) && AheadCount(WithState(rows, id, state), e) <= AheadCount(rows, e)
  {
    var i :| 0 <= i < |rows| && rows[i] == e;
    assert WithState(rows, id, state)[i] == e;
    AheadMonotone(WithState(rows, id, state), rows, e);
  }

  /** A claim takes `e`, or leaves it waiting with less patience. */
  lemma ClaimStep(b: Buffer, capacity: nat, e: Row, now: int)
    requires Valid(b.rows, capacity) && Waits(b.rows, e) && now >= e.due
    ensures Claimed(b, now).Some?
    ensures b.rows[Claimed(b, now).value] != e ==>
              Waits(AfterClaim(b, now).rows, e) && Patience(AfterClaim(b, now), e) < Patience(b, e)
  {
    var j :| 0 <= j < |b.rows| && b.rows[j] == e;
    assert Ready(b.rows[j], now);
    var i := Claimed(b, now).value;
    if b.rows[i] != e {
      var b' := AfterClaim(b, now);
      assert b'.rows[j] == e;
      AheadMonotone(b'.rows, b.rows, e);
      if FifoTurn(b.claims) {
        assert Ahead(b.rows[i], e) && !Ahead(b'.rows[i], e);
      }
    }
  }

  lemma {:induction false} Bypass(b: Buffer, capacity: nat, e: Row, ops: seq<Op>) returns (n: nat)
    requires Valid(b.rows, capacity) && Waits(b.rows, e) && FairRun(b, capacity, e, ops) && Claims(ops) > Patience(b, e)
    ensures n < |ops| && ops[n].Claiming? && Claims(ops[..n]) <= Patience(b, e)
    ensures var at := Run(b, capacity, ops[..n]);
            Claimed(at, ops[n].now).Some? && at.rows[Claimed(at, ops[n].now).value] == e
    decreases |ops|
  {
    var next := Apply(b, capacity, ops[0]);
    if ops[0].Claiming? { ClaimStep(b, capacity, e, ops[0].now); }
    if ops[0].Claiming? && b.rows[Claimed(b, ops[0].now).value] == e {
      n := 0;
      assert ops[..0] == [];
    } else {
      if !ops[0].Claiming? { OtherStep(b, capacity, e, ops[0]); }
      StepValid(b, capacity, ops[0]);
      var m := Bypass(next, capacity, e, ops[1..]);
      n := m + 1;
      assert ops[..n][0] == ops[0] && ops[..n][1..] == ops[1..][..m];
    }
  }

  /** A ready event with `k` pending events ahead of it in arrival order is taken by one of the next
      100 * (k + 1) claims, whatever more urgent events keep arriving. */
  lemma BoundedBypass(b: Buffer, capacity: nat, e: Row, ops: seq<Op>)
    requires Valid(b.rows, capacity) && Waits(b.rows, e) && FairRun(b, capacity, e, ops)
    requires Claims(ops) >= 100 * (AheadCount(b.rows, e) + 1)
    ensures exists n :: 0 <= n < |ops| && ops[n].Claiming? && Claims(ops[..n]) < 100 * (AheadCount(b.rows, e) + 1)
                        && (var at := Run(b, capacity, ops[..n]);
                            Claimed(at, ops[n].now).Some? && at.rows[Claimed(at, ops[n].now).value] == e)
  {
    var n := Bypass(b, capacity, e, ops);
    assert ops[n].Claiming?;
  }

  // ---- what one call takes or takes in --------------------------------------------------------

  /** The turn of a claim: all but every hundredth look at priority, then due time, then id. */
  predicate Precedes(a: Row, b: Row, byPriority: bool) {
    || (byPriority && a.priority > b.priority)
    || ((!byPriority || a.priority == b.priority) && (a.due < b.due || (a.due == b.due && a.id <= b.id)))
  }

  /** A claim takes a pending row that is due and that precedes every other such row, if there is one, marks it
      and counts the attempt; and it touches no other. */
  lemma ClaimOutcome(b: Buffer, now: int)
    ensures var b' := AfterClaim(b, now);
            match Claimed(b, now)
            case None => b' == b && forall j :: 0 <= j < |b.rows| ==> b.rows[j].state != Pending || b.rows[j].due > now
            case Some(i) =>
              && i < |b.rows| && b.rows[i].state == Pending && b.rows[i].due <= now
              && (forall j :: 0 <= j < |b.rows| && b.rows[j].state == Pending && b.rows[j].due <= now ==>
                    Precedes(b.rows[i], b.rows[j], (b.claims + 1) % 100 != 0))
              && b'.claims == b.claims + 1
              && b'.rows == b.rows[i := b.rows[i].(state := Processing, attempts := b.rows[i].attempts + 1)]
  {}

  function InQueue(rows: seq<Row>): set<nat> { set i: nat | i < |rows| && (rows[i].state == Pending || rows[i].state == Processing) }

  lemma {:induction false} DepthCounts(rows: seq<Row>)
    ensures Depth(rows) == |InQueue(rows)|
  {
    if rows != [] {
      var rest := rows[..|rows| - 1];
      DepthCounts(rest);
      assert InQueue(rows) == InQueue(rest) + if Queued(rows[|rest|]) then {|rest|} else {};
    }
  }

  predicate Held(rows: seq<Row>, event: EventId) { exists i :: 0 <= i < |rows| && rows[i].event == event }

  lemma KnownIsHeld(rows: seq<Row>, event: EventId)
    ensures Known(rows, event) <==> Held(rows, event)
  {
    assert forall i :: 0 <= i < |rows| ==> rows[i] in rows;
  }

  /** The row of an arrival: pending, never attempted, at the priority its kind is raised to. */
  predicate RowOf(r: Row, a: Arrival) {
    && r.event == a.event && r.state == Pending && r.due == a.due && r.received == a.received && r.attempts == 0
    && r.priority >= a.severity
    && (a.guarded ==> r.priority == a.severity || r.priority == 9.0) && (a.guarded ==> r.priority >= 9.0)
    && (!a.guarded && a.routine ==> r.priority >= 6.5 && (r.priority == a.severity || r.priority == 6.5))
    && (!a.guarded && !a.routine && a.severity >= 0.0 ==> r.priority == a.severity)
  }

  /** An event goes in unless it is held already or the queue is full, in that order. */
  lemma EnqueueOutcome(rows: seq<Row>, capacity: nat, a: Arrival)
    ensures var (rows', r) := Enqueued(rows, capacity, a);
            && (r == Duplicate <==> Held(rows, a.event))
            && (r == Full <==> !Held(rows, a.event) && |InQueue(rows)| >= capacity)
            && (r != Accepted ==> rows' == rows)
            && (r == Accepted ==>
                  && |rows'| == |rows| + 1 && rows'[..|rows|] == rows && RowOf(rows'[|rows|], a)
                  && rows'[|rows|].id == if |rows| > 0 then rows[|rows| - 1].id + 1 else 1)
  {
    DepthCounts(rows);
    KnownIsHeld(rows, a.event);
  }

  lemma {:induction false} BatchRows(rows: seq<Row>, arrivals: seq<Arrival>, k: nat)
    requires k <= |arrivals|
    ensures var rows' := AppendAll(rows, arrivals, k);
            && |rows'| == |rows| + k && rows'[..|rows|] == rows
            && forall i :: 0 <= i < k ==> RowOf(rows'[|rows| + i], arrivals[i])
  {
    if k > 0 { BatchRows(rows, arrivals, k - 1); }
  }

  /** A batch goes in whole, in order, when there is room for all of it and every event is new; else none does. */
  lemma BatchOutcome(rows: seq<Row>, capacity: nat, arrivals: seq<Arrival>)
    ensures var (rows', r) := EnqueuedMany(rows, capacity, arrivals);
            && (r == Full <==> |InQueue(rows)| + |arrivals| > capacity)
            && (r == Accepted <==>
                  && |InQueue(rows)| + |arrivals| <= capacity
                  && (forall i :: 0 <= i < |arrivals| ==> !Held(rows, arrivals[i].event))
                  && forall i, j :: 0 <= i < j < |arrivals| ==> arrivals[i].event != arrivals[j].event)
            && (r != Accepted ==> rows' == rows)
            && (r == Accepted ==>
                  && |rows'| == |rows| + |arrivals| && rows'[..|rows|] == rows
                  && forall i :: 0 <= i < |arrivals| ==> RowOf(rows'[|rows| + i], arrivals[i]))
  {
    DepthCounts(rows);
    forall e { KnownIsHeld(rows, e); }
    assert forall i :: 0 <= i < |arrivals| ==> arrivals[i] in arrivals;
    BatchRows(rows, arrivals, |arrivals|);
  }
}
