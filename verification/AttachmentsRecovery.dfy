/** A poll of the same snapshot makes good whatever crashes in the polls before it left behind. */
module AttachmentsRecovery {
  import opened Wrappers
  import opened Attachments
  import opened AttachmentsRuns

  // ---- the changes that are left once the first has been applied ----------------------------

  lemma {:induction false} ArrivalsJoin(previous: map<Key, Row>, current: map<Key, Row>, initial: bool, a: seq<Key>, b: seq<Key>)
    ensures Arrivals(previous, current, initial, a + b) == Arrivals(previous, current, initial, a) + Arrivals(previous, current, initial, b)
  {
    if b == [] { assert a + b == a; }
    else {
      assert (a + b)[..|a + b| - 1] == a + b[..|b| - 1];
      ArrivalsJoin(previous, current, initial, a, b[..|b| - 1]);
    }
  }

  lemma {:induction false} DeparturesJoin(previous: map<Key, Row>, current: map<Key, Row>, a: seq<Key>, b: seq<Key>)
    ensures Departures(previous, current, a + b) == Departures(previous, current, a) + Departures(previous, current, b)
  {
    if b == [] { assert a + b == a; }
    else {
      assert (a + b)[..|a + b| - 1] == a + b[..|b| - 1];
      DeparturesJoin(previous, current, a, b[..|b| - 1]);
    }
  }

  lemma {:induction false} ArrivalsUnmoved(previous: map<Key, Row>, moved: map<Key, Row>, current: map<Key, Row>, initial: bool, order: seq<Key>)
    requires forall k :: k in order && k in current ==> Get(moved, k) == Get(previous, k)
    ensures Arrivals(moved, current, initial, order) == Arrivals(previous, current, initial, order)
  {
    if order != [] { ArrivalsUnmoved(previous, moved, current, initial, order[..|order| - 1]); }
  }

  lemma {:induction false} DeparturesUnmoved(previous: map<Key, Row>, moved: map<Key, Row>, current: map<Key, Row>, order: seq<Key>)
    requires forall k :: k in order && k !in current ==> Get(moved, k) == Get(previous, k)
    ensures Departures(moved, current, order) == Departures(previous, current, order)
  {
    if order != [] {
      var k := order[|order| - 1];
      assert k !in current ==> Get(moved, k) == Get(previous, k);
      DeparturesUnmoved(previous, moved, current, order[..|order| - 1]);
    }
  }

  /** Where the first arrival is. */
  lemma {:induction false} FirstArrival(previous: map<Key, Row>, current: map<Key, Row>, initial: bool, order: seq<Key>) returns (i: nat)
    requires Arrivals(previous, current, initial, order) != []
    ensures i < |order| && Arrivals(previous, current, initial, order[..i]) == [] && Arrival(previous, current, initial, order[i]) != []
  {
    var rest := order[..|order| - 1];
    if Arrivals(previous, current, initial, rest) != [] {
      i := FirstArrival(previous, current, initial, rest);
      assert rest[..i] == order[..i];
    } else {
      i := |order| - 1;
    }
  }

  lemma {:induction false} FirstDeparture(previous: map<Key, Row>, current: map<Key, Row>, order: seq<Key>) returns (i: nat)
    requires Departures(previous, current, order) != []
    ensures i < |order| && Departures(previous, current, order[..i]) == [] && Departure(previous, current, order[i]) != []
  {
    var rest := order[..|order| - 1];
    if Departures(previous, current, rest) != [] {
      i := FirstDeparture(previous, current, rest);
      assert rest[..i] == order[..i];
    } else {
      i := |order| - 1;
    }
  }

  lemma SplitAt(order: seq<Key>, i: nat)
    requires i < |order|
    ensures order == order[..i] + ([order[i]] + order[i + 1..])
  {}

  lemma OneKey(previous: map<Key, Row>, current: map<Key, Row>, initial: bool, k: Key)
    ensures Arrivals(previous, current, initial, [k]) == Arrival(previous, current, initial, k)
    ensures Departures(previous, current, [k]) == Departure(previous, current, k)
  {
    assert [k][..0] == [];
  }

  lemma UniqueParts(a: seq<Key>, k: Key, b: seq<Key>)
    requires Unique(a + ([k] + b))
    ensures k !in a && k !in b
  {
    var order := a + ([k] + b);
    assert order[|a|] == k;
    forall i | 0 <= i < |a| ensures a[i] != k { assert order[i] == a[i]; }
    forall i | 0 <= i < |b| ensures b[i] != k { assert order[|a| + 1 + i] == b[i]; }
  }

  lemma ArrivalParts(previous: map<Key, Row>, current: map<Key, Row>, initial: bool, a: seq<Key>, k: Key, b: seq<Key>)
    ensures Arrivals(previous, current, initial, a + ([k] + b))
         == Arrivals(previous, current, initial, a) + (Arrival(previous, current, initial, k) + Arrivals(previous, current, initial, b))
  {
    ArrivalsJoin(previous, current, initial, a, [k] + b);
    ArrivalsJoin(previous, current, initial, [k], b);
    OneKey(previous, current, initial, k);
  }

  lemma DepartureParts(previous: map<Key, Row>, current: map<Key, Row>, a: seq<Key>, k: Key, b: seq<Key>)
    ensures Departures(previous, current, a + ([k] + b))
         == Departures(previous, current, a) + (Departure(previous, current, k) + Departures(previous, current, b))
  {
    DeparturesJoin(previous, current, a, [k] + b);
    DeparturesJoin(previous, current, [k], b);
    OneKey(previous, current, false, k);
  }

  lemma ArrivalShift(previous: map<Key, Row>, current: map<Key, Row>, initial: bool, order: seq<Key>)
    requires Unique(order) && Arrivals(previous, current, initial, order) != []
    ensures var xs := Arrivals(previous, current, initial, order);
            && xs[0].action != Removed && xs[0].key in current && xs[0].row == current[xs[0].key]
            && Arrivals(previous[xs[0].key := xs[0].row], current, initial, order) == xs[1..]
  {
    var i := FirstArrival(previous, current, initial, order);
    SplitAt(order, i);
    ShiftParts(previous, current, initial, order[..i], order[i], order[i + 1..]);
  }

  lemma ShiftParts(previous: map<Key, Row>, current: map<Key, Row>, initial: bool, a: seq<Key>, k: Key, b: seq<Key>)
    requires Unique(a + ([k] + b)) && Arrivals(previous, current, initial, a) == [] && Arrival(previous, current, initial, k) != []
    ensures var xs := Arrivals(previous, current, initial, a + ([k] + b));
            && xs == Arrival(previous, current, initial, k) + Arrivals(previous, current, initial, b)
            && Arrivals(previous[k := current[k]], current, initial, a + ([k] + b)) == Arrivals(previous, current, initial, b)
  {
    var moved := previous[k := current[k]];
    UniqueParts(a, k, b);
    ArrivalParts(previous, current, initial, a, k, b);
    ArrivalParts(moved, current, initial, a, k, b);
    ArrivalsUnmoved(previous, moved, current, initial, a);
    ArrivalsUnmoved(previous, moved, current, initial, b);
  }

  lemma {:induction false} WithoutAbsent(order: seq<Key>, k: Key)
    requires k !in order
    ensures Without(order, k) == order
  {
    if order != [] { WithoutAbsent(order[..|order| - 1], k); }
  }

  lemma {:induction false} WithoutJoin(a: seq<Key>, b: seq<Key>, k: Key)
    ensures Without(a + b, k) == Without(a, k) + Without(b, k)
  {
    if b == [] { assert a + b == a; }
    else {
      assert (a + b)[..|a + b| - 1] == a + b[..|b| - 1];
      WithoutJoin(a, b[..|b| - 1], k);
    }
  }

  lemma DepartureShift(previous: Dict, current: map<Key, Row>)
    requires Unique(previous.order) && Departures(previous.rows, current, previous.order) != []
    ensures var xs := Departures(previous.rows, current, previous.order);
            && xs[0].action == Removed && xs[0].key !in current
            && Departures(Drop(previous, xs[0].key).rows, current, Drop(previous, xs[0].key).order) == xs[1..]
  {
    var i := FirstDeparture(previous.rows, current, previous.order);
    SplitAt(previous.order, i);
    DropParts(previous.rows, current, previous.order[..i], previous.order[i], previous.order[i + 1..]);
  }

  lemma DropParts(previous: map<Key, Row>, current: map<Key, Row>, a: seq<Key>, k: Key, b: seq<Key>)
    requires Unique(a + ([k] + b)) && Departures(previous, current, a) == [] && Departure(previous, current, k) != []
    ensures Departures(previous, current, a + ([k] + b)) == Departure(previous, current, k) + Departures(previous, current, b)
    ensures Departures(previous - {k}, current, Without(a + ([k] + b), k)) == Departures(previous, current, b)
  {
    UniqueParts(a, k, b);
    DepartureParts(previous, current, a, k, b);
    WithoutPart(a, k, b);
    DeparturesJoin(previous - {k}, current, a, b);
    DeparturesUnmoved(previous, previous - {k}, current, a);
    DeparturesUnmoved(previous, previous - {k}, current, b);
  }

  lemma WithoutOne(k: Key)
    ensures Without([k], k) == []
  {
    assert [k][..0] == [];
  }

  lemma WithoutFirst(k: Key, b: seq<Key>)
    requires k !in b
    ensures Without([k] + b, k) == b
  {
    WithoutJoin([k], b, k);
    WithoutOne(k);
    WithoutAbsent(b, k);
    assert [] + b == b;
  }

  lemma WithoutPart(a: seq<Key>, k: Key, b: seq<Key>)
    requires k !in a && k !in b
    ensures Without(a + ([k] + b), k) == a + b
  {
    WithoutJoin(a, [k] + b, k);
    WithoutAbsent(a, k);
    WithoutFirst(k, b);
  }

  lemma ArrivalFirst(previous: Dict, current: Dict, initial: bool)
    requires Listed(current)
    requires Arrivals(previous.rows, current.rows, initial, current.order) != []
    ensures var xs := Arrivals(previous.rows, current.rows, initial, current.order);
            var next := Put(previous, xs[0].key, xs[0].row);
            && xs[0].action != Removed
            && Arrivals(next.rows, current.rows, initial, current.order) == xs[1..]
            && Departures(next.rows, current.rows, next.order) == Departures(previous.rows, current.rows, previous.order)
  {
    var x := Arrivals(previous.rows, current.rows, initial, current.order)[0];
    ArrivalShift(previous.rows, current.rows, initial, current.order);
    var next := Put(previous, x.key, x.row);
    DeparturesUnmoved(previous.rows, next.rows, current.rows, previous.order);
    DeparturesJoin(next.rows, current.rows, previous.order, [x.key]);
    OneKey(next.rows, current.rows, initial, x.key);
  }

  lemma DepartureFirst(previous: Dict, current: Dict, initial: bool)
    requires Listed(previous) && Arrivals(previous.rows, current.rows, initial, current.order) == []
    requires Departures(previous.rows, current.rows, previous.order) != []
    ensures var xs := Departures(previous.rows, current.rows, previous.order);
            var next := Drop(previous, xs[0].key);
            && xs[0].action == Removed
            && Arrivals(next.rows, current.rows, initial, current.order) == []
            && Departures(next.rows, current.rows, next.order) == xs[1..]
  {
    var x := Departures(previous.rows, current.rows, previous.order)[0];
    DepartureShift(previous, current.rows);
    ArrivalsUnmoved(previous.rows, Drop(previous, x.key).rows, current.rows, initial, current.order);
  }

  lemma TailOfBoth(a: seq<Change>, b: seq<Change>)
    requires a != []
    ensures (a + b)[1..] == a[1..] + b && (a + b)[0] == a[0]
  {}

  /** Applying the first change leaves exactly the others, in order. */
  lemma ChangesShift(previous: Dict, current: Dict, initial: bool, c: Category)
    requires Listed(current) && (Tracked(c) ==> Listed(previous))
    requires Changes(previous, current, initial, c) != []
    ensures var xs := Changes(previous, current, initial, c);
            Changes(ApplyChange(previous, xs[0]), current, initial, c) == xs[1..]
  {
    var arrivals := Arrivals(previous.rows, current.rows, initial, current.order);
    var departures := if Tracked(c) then Departures(previous.rows, current.rows, previous.order) else [];
    if arrivals != [] {
      ArrivalFirst(previous, current, initial);
      TailOfBoth(arrivals, departures);
    } else {
      assert arrivals + departures == departures;
      DepartureFirst(previous, current, initial);
    }
  }

  // ---- the events a poll still has to hand over ------------------------------------------------

  function Differences(live: Checkpoint, s: Scan): seq<Change> {
    Changes(Known(live, s.category), Keyed(s.rows), s.category !in live.initialized, s.category)
  }

  function EventOf(c: Category, x: Change, n: nat): Event { Event(c, x.key, x.row, x.action, n) }

  /** One category's events, in the order they are handed over. */
  function Events(live: Checkpoint, c: Category, xs: seq<Change>): seq<Event>
    decreases |xs|
  {
    if xs == [] then [] else [EventOf(c, xs[0], live.sequence)] + Events(Advance(live, c, xs[0]), c, xs[1..])
  }

  function AdvanceAll(live: Checkpoint, c: Category, xs: seq<Change>): Checkpoint
    decreases |xs|
  {
    if xs == [] then live else AdvanceAll(Advance(live, c, xs[0]), c, xs[1..])
  }

  /** The checkpoint once a scan is over, with nothing in the way. */
  function AfterScan(live: Checkpoint, s: Scan): Checkpoint {
    Finished(AdvanceAll(live, s.category, Differences(live, s)), s.category, Keyed(s.rows))
  }

  /** What each of a series of steps hands over, and where it leads. */
  datatype Series = Series(gives: (nat, Checkpoint) -> seq<Event>, leads: (nat, Checkpoint) -> Checkpoint)

  function AllGiven(live: Checkpoint, x: Series, i: nat, n: nat): seq<Event>
    decreases if i < n then n - i else 0
  {
    if i >= n then [] else x.gives(i, live) + AllGiven(x.leads(i, live), x, i + 1, n)
  }

  function SeriesOf(scans: seq<Scan>): Series {
    Series((i: nat, l: Checkpoint) => if i < |scans| then Events(l, scans[i].category, Differences(l, scans[i])) else [],
           (i: nat, l: Checkpoint) => if i < |scans| then AfterScan(l, scans[i]) else l)
  }

  /** All the events from scan `i` on, with nothing in the way. */
  function Plan(live: Checkpoint, scans: seq<Scan>, i: nat): seq<Event> { AllGiven(live, SeriesOf(scans), i, |scans|) }

  /** The categories before scan `i` stand as the snapshot has them. */
  predicate Done(live: Checkpoint, scans: seq<Scan>, i: nat)
    requires i <= |scans|
  {
    forall j :: 0 <= j < i ==>
      scans[j].category in live.dicts && live.dicts[scans[j].category] == Keyed(scans[j].rows) && scans[j].category in live.initialized
  }

  lemma {:induction false} Unchanged(rows: map<Key, Row>, initial: bool, order: seq<Key>)
    ensures Arrivals(rows, rows, initial, order) == [] && Departures(rows, rows, order) == []
  {
    NoArrival(rows, initial, order);
    NoDeparture(rows, order);
  }

  lemma DoneIsQuiet(live: Checkpoint, s: Scan)
    requires s.category in live.dicts && live.dicts[s.category] == Keyed(s.rows) && s.category in live.initialized
    ensures Differences(live, s) == [] && AfterScan(live, s) == live
  {
    Unchanged(Keyed(s.rows).rows, false, Keyed(s.rows).order);
    assert live.dicts[s.category := Keyed(s.rows)] == live.dicts && live.initialized + {s.category} == live.initialized;
  }

  /** Steps that give nothing and lead nowhere can be skipped. */
  lemma {:induction false} Skips(live: Checkpoint, x: Series, i: nat, n: nat)
    requires i <= n && forall j: nat :: j < i ==> x.gives(j, live) == [] && x.leads(j, live) == live
    ensures AllGiven(live, x, 0, n) == AllGiven(live, x, i, n)
  {
    if i > 0 {
      Skips(live, x, i - 1, n);
      assert x.gives(i - 1, live) + AllGiven(live, x, i, n) == AllGiven(live, x, i, n);
    }
  }

  lemma PlanSkips(live: Checkpoint, scans: seq<Scan>, i: nat)
    requires i <= |scans| && Done(live, scans, i)
    ensures Plan(live, scans, 0) == Plan(live, scans, i)
  {
    var x := SeriesOf(scans);
    forall j: nat | j < i ensures x.gives(j, live) == [] && x.leads(j, live) == live { DoneIsQuiet(live, scans[j]); }
    Skips(live, x, i, |scans|);
  }

  /** What is left of a category once its first change has been handed over. */
  lemma DifferencesShift(live: Checkpoint, s: Scan)
    requires Differences(live, s) != [] && (Tracked(s.category) ==> Listed(Known(live, s.category)))
    ensures var xs := Differences(live, s);
            Differences(Advance(live, s.category, xs[0]), s) == xs[1..]
  {
    KeyedListed(s.rows);
    ChangesShift(Known(live, s.category), Keyed(s.rows), s.category !in live.initialized, s.category);
  }

  /** A step that gives `e` first and otherwise does what it does from `next`. */
  lemma GivesFirst(live: Checkpoint, next: Checkpoint, x: Series, i: nat, n: nat, e: Event)
    requires i < n && x.gives(i, live) == [e] + x.gives(i, next) && x.leads(i, live) == x.leads(i, next)
    ensures AllGiven(live, x, i, n) == [e] + AllGiven(next, x, i, n)
  {}

  lemma AdvanceKeepsDone(live: Checkpoint, scans: seq<Scan>, i: nat, x: Change)
    requires i < |scans| && Separate(scans) && Done(live, scans, i)
    ensures Done(Advance(live, scans[i].category, x), scans, i)
  {}

  /** Handing over the first change of a scan takes the first event off the plan. */
  lemma PlanAdvances(live: Checkpoint, scans: seq<Scan>, i: nat)
    requires i < |scans| && Separate(scans) && Done(live, scans, i) && Differences(live, scans[i]) != []
    requires Tracked(scans[i].category) ==> Listed(Known(live, scans[i].category))
    ensures var c, xs := scans[i].category, Differences(live, scans[i]);
            var next := Advance(live, c, xs[0]);
            && Done(next, scans, i) && Differences(next, scans[i]) == xs[1..]
            && Plan(live, scans, 0) == [EventOf(c, xs[0], live.sequence)] + Plan(next, scans, 0)
  {
    var s, xs := scans[i], Differences(live, scans[i]);
    var next := Advance(live, s.category, xs[0]);
    DifferencesShift(live, s);
    AdvanceKeepsDone(live, scans, i, xs[0]);
    GivesFirst(live, next, SeriesOf(scans), i, |scans|, EventOf(s.category, xs[0], live.sequence));
    PlanSkips(live, scans, i);
    PlanSkips(next, scans, i);
  }

  lemma GivesNothing(live: Checkpoint, next: Checkpoint, x: Series, i: nat, n: nat)
    requires i < n && x.gives(i, live) == [] && x.leads(i, live) == next
    ensures AllGiven(live, x, i, n) == AllGiven(next, x, i + 1, n)
  {}

  lemma FinishGivesNothing(live: Checkpoint, scans: seq<Scan>, i: nat)
    requires i < |scans| && Differences(live, scans[i]) == []
    ensures SeriesOf(scans).gives(i, live) == []
    ensures SeriesOf(scans).leads(i, live) == Finished(live, scans[i].category, Keyed(scans[i].rows))
  {}

  lemma FinishedIsDone(live: Checkpoint, scans: seq<Scan>, i: nat)
    requires i < |scans| && Separate(scans) && Done(live, scans, i)
    ensures Done(Finished(live, scans[i].category, Keyed(scans[i].rows)), scans, i + 1)
  {}

  /** A scan with nothing left to hand over ends without an event. */
  lemma PlanFinishes(live: Checkpoint, scans: seq<Scan>, i: nat)
    requires i < |scans| && Separate(scans) && Done(live, scans, i) && Differences(live, scans[i]) == []
    ensures var next := Finished(live, scans[i].category, Keyed(scans[i].rows));
            Done(next, scans, i + 1) && Plan(next, scans, 0) == Plan(live, scans, 0)
  {
    var next := Finished(live, scans[i].category, Keyed(scans[i].rows));
    FinishGivesNothing(live, scans, i);
    FinishedIsDone(live, scans, i);
    GivesNothing(live, next, SeriesOf(scans), i, |scans|);
    PlanSkips(live, scans, i);
    PlanSkips(next, scans, i + 1);
  }

  lemma FinishedStaysFaithful(live: Checkpoint, events: seq<Event>, s: Scan)
    requires Faithful(live, events) && Differences(live, s) == []
    ensures Faithful(Finished(live, s.category, Keyed(s.rows)), events)
  {
    KeyedListed(s.rows);
    if Tracked(s.category) {
      SilentWhenUnchanged(Known(live, s.category), Keyed(s.rows), s.category !in live.initialized, s.category);
    }
    FinishedIsFaithful(live, events, s.category, Keyed(s.rows));
  }

  // ---- what a crash leaves: the next events of the plan, already stored ---------------------------

  /** A snapshot, and all the events that are stored once it has been taken. */
  datatype Goal = Goal(scans: seq<Scan>, total: seq<Event>)

  /** The last `n` of the stored events are the first that a poll of the snapshot would hand over. */
  ghost predicate AheadBy(events: seq<Event>, live: Checkpoint, g: Goal, n: nat) {
    n <= |events| && Behind(live, events, n) && events <= g.total && g.total[|events| - n..] == Plan(live, g.scans, 0)
  }

  ghost predicate Ahead(events: seq<Event>, live: Checkpoint, g: Goal) { exists n: nat :: AheadBy(events, live, g, n) }

  ghost predicate LinkBy(d: Disk, live: Checkpoint, g: Goal, m: nat, n: nat) {
    && AheadBy(d.accepted, d.saved, g, m) && AheadBy(d.accepted, live, g, n)
    && live.sequence + n == d.saved.sequence + m
  }

  /** While a poll goes on: both the live and the saved checkpoint lead to the same events. */
  ghost predicate Linked(d: Disk, live: Checkpoint, g: Goal) { exists m: nat, n: nat :: LinkBy(d, live, g, m, n) }

  lemma FaithfulIsAhead(events: seq<Event>, live: Checkpoint, scans: seq<Scan>)
    requires Faithful(live, events)
    ensures Ahead(events, live, Goal(scans, events + Plan(live, scans, 0)))
  {
    assert events[..|events| - 0] == events;
    assert AheadBy(events, live, Goal(scans, events + Plan(live, scans, 0)), 0);
  }

  lemma AheadIsLinked(d: Disk, g: Goal)
    requires Ahead(d.accepted, d.saved, g)
    ensures Linked(d, d.saved, g)
  {
    var n: nat :| AheadBy(d.accepted, d.saved, g, n);
    assert LinkBy(d, d.saved, g, n, n);
  }

  lemma AheadIsListed(events: seq<Event>, live: Checkpoint, g: Goal, c: Category)
    requires Ahead(events, live, g)
    ensures Tracked(c) ==> Listed(Known(live, c))
  {
    var n: nat :| AheadBy(events, live, g, n);
  }

  lemma Peel(total: seq<Event>, i: nat, e: Event, rest: seq<Event>)
    requires i <= |total| && total[i..] == [e] + rest
    ensures i < |total| && total[i] == e && total[i + 1..] == rest
  {
    assert total[i..][0] == e && total[i..][1..] == total[i + 1..] && ([e] + rest)[1..] == rest;
  }

  /** Storing the next event of the total leaves a checkpoint one more behind. */
  lemma StoredIsAhead(events: seq<Event>, cp: Checkpoint, g: Goal, n: nat, e: Event)
    requires AheadBy(events, cp, g, n) && |events| < |g.total| && g.total[|events|] == e && e.sequence == cp.sequence + n
    ensures AheadBy(events + [e], cp, g, n + 1)
  {
    BehindOneMore(cp, events, n, e);
  }

  /** Counting the first of the stored events leaves it one less behind. */
  lemma CountedIsAhead(events: seq<Event>, live: Checkpoint, g: Goal, n: nat, c: Category, x: Change)
    requires n >= 1 && AheadBy(events, live, g, n)
    requires Plan(live, g.scans, 0) == [EventOf(c, x, live.sequence)] + Plan(Advance(live, c, x), g.scans, 0)
    ensures EventOf(c, x, live.sequence) in events && AheadBy(events, Advance(live, c, x), g, n - 1)
  {
    var first := |events| - n;
    Peel(g.total, first, EventOf(c, x, live.sequence), Plan(Advance(live, c, x), g.scans, 0));
    assert events[first] == g.total[first];
    OneLessBehind(live, events, n, c, x);
  }

  /** With nothing ahead of the live checkpoint the next event has a number that is not taken. */
  lemma NextIsNew(events: seq<Event>, live: Checkpoint, g: Goal, e: Event)
    requires AheadBy(events, live, g, 0) && e.sequence == live.sequence
    ensures e !in events
  {
    assert events[..|events| - 0] == events;
  }

  /** Once its event is stored, now or before the crash, a hand-over has it ahead of the live checkpoint. */
  lemma SubmitLinks(d: Disk, live: Checkpoint, g: Goal, c: Category, x: Change) returns (m: nat, n: nat)
    requires Linked(d, live, g)
    requires Plan(live, g.scans, 0) == [EventOf(c, x, live.sequence)] + Plan(Advance(live, c, x), g.scans, 0)
    ensures n >= 1 && LinkBy(Submit(d, EventOf(c, x, live.sequence)), live, g, m, n)
  {
    var e := EventOf(c, x, live.sequence);
    m, n :| LinkBy(d, live, g, m, n);
    if n == 0 {
      NextIsNew(d.accepted, live, g, e);
      Peel(g.total, |d.accepted|, e, Plan(Advance(live, c, x), g.scans, 0));
      StoredIsAhead(d.accepted, d.saved, g, m, e);
      StoredIsAhead(d.accepted, live, g, n, e);
      m, n := m + 1, n + 1;
    } else {
      CountedIsAhead(d.accepted, live, g, n, c, x);
    }
  }

  lemma LinkedHandOver(d: Disk, live: Checkpoint, g: Goal, c: Category, x: Change)
    requires Linked(d, live, g)
    requires Plan(live, g.scans, 0) == [EventOf(c, x, live.sequence)] + Plan(Advance(live, c, x), g.scans, 0)
    ensures var stored := Submit(d, EventOf(c, x, live.sequence));
            && Ahead(stored.accepted, stored.saved, g) && Ahead(stored.accepted, live, g)
            && Linked(stored.(saved := live), Advance(live, c, x), g)
  {
    var stored := Submit(d, EventOf(c, x, live.sequence));
    var m, n := SubmitLinks(d, live, g, c, x);
    CountedIsAhead(stored.accepted, live, g, n, c, x);
    assert LinkBy(stored.(saved := live), Advance(live, c, x), g, n, n - 1);
  }

  // ---- a poll that may be interrupted or cut --------------------------------------------------------

  /** Work that keeps a measure of progress, has its commits satisfy `ok`, and leaves `stop` when interrupted. */
  ghost predicate Leads(work: Work, n: nat, at: (nat, Disk, Checkpoint) -> bool, ok: Disk -> bool, stop: (Disk, Checkpoint) -> bool) {
    forall i: nat, e: Disk, l: Checkpoint :: i < n && at(i, e, l) ==> Arrives(e, work(i, e, l), i + 1, at, ok, stop)
  }

  ghost predicate Arrives(d: Disk, p: Progress, i: nat, at: (nat, Disk, Checkpoint) -> bool, ok: Disk -> bool, stop: (Disk, Checkpoint) -> bool) {
    AllHold(p.trace, ok) && if p.open then at(i, After(d, p.trace), p.live) else stop(After(d, p.trace), p.live)
  }

  lemma {:induction false} WorkReaches(d: Disk, live: Checkpoint, work: Work, n: nat,
                                       at: (nat, Disk, Checkpoint) -> bool, ok: Disk -> bool, stop: (Disk, Checkpoint) -> bool)
    requires at(0, d, live) && Leads(work, n, at, ok, stop)
    ensures Arrives(d, WorkTo(d, live, work, n), n, at, ok, stop)
  {
    if n > 0 {
      WorkReaches(d, live, work, n - 1, at, ok, stop);
      var before := WorkTo(d, live, work, n - 1);
      if before.open {
        var next := work(n - 1, After(d, before.trace), before.live);
        assert Arrives(After(d, before.trace), next, n, at, ok, stop);
        WorkNext(d, live, work, n - 1, before, next);
      }
    }
  }

  /** Every state on disk can be resumed from. */
  ghost function Resumable(g: Goal): Disk -> bool { (s: Disk) => Ahead(s.accepted, s.saved, g) }

  /** So can the checkpoint that an interrupted poll saves, if the poll can be interrupted at all. */
  ghost function Halfway(g: Goal, calm: bool): (Disk, Checkpoint) -> bool { (s: Disk, l: Checkpoint) => !calm && Ahead(s.accepted, l, g) }

  /** Within scan `i`, with the changes from `k` on still to hand over. */
  ghost predicate Underway(d: Disk, live: Checkpoint, g: Goal, i: nat, xs: seq<Change>, k: nat)
    requires i < |g.scans|
  {
    k <= |xs| && Linked(d, live, g) && Done(live, g.scans, i) && Differences(live, g.scans[i]) == xs[k..]
  }

  ghost function UnderwayAt(g: Goal, i: nat, xs: seq<Change>): (nat, Disk, Checkpoint) -> bool
    requires i < |g.scans|
  {
    (k: nat, e: Disk, l: Checkpoint) => Underway(e, l, g, i, xs, k)
  }

  lemma LinkedIsAhead(d: Disk, live: Checkpoint, g: Goal)
    requires Linked(d, live, g)
    ensures Ahead(d.accepted, d.saved, g) && Ahead(d.accepted, live, g)
  {}

  lemma HandOverArrives(d: Disk, live: Checkpoint, c: Category, x: Change, m: Meets, k: nat,
                        at: (nat, Disk, Checkpoint) -> bool, ok: Disk -> bool, stop: (Disk, Checkpoint) -> bool)
    requires m.stopped || m.full ==> stop(d, live)
    requires var stored := Submit(d, EventOf(c, x, live.sequence));
             ok(stored) && ok(stored.(saved := live)) && at(k, stored.(saved := live), Advance(live, c, x))
    ensures Arrives(d, HandOver(d, live, c, x, m), k, at, ok, stop)
  {}

  lemma UnderwayNext(d: Disk, live: Checkpoint, g: Goal, i: nat, xs: seq<Change>, k: nat)
    requires i < |g.scans| && Separate(g.scans) && k < |xs| && Underway(d, live, g, i, xs, k)
    ensures var c, x := g.scans[i].category, xs[k];
            var stored := Submit(d, EventOf(c, x, live.sequence));
            && Ahead(stored.accepted, stored.saved, g) && Ahead(stored.accepted, live, g)
            && Underway(stored.(saved := live), Advance(live, c, x), g, i, xs, k + 1)
  {
    assert Differences(live, g.scans[i])[0] == xs[k] && xs[k..][1..] == xs[k + 1..];
    LinkedIsAhead(d, live, g);
    AheadIsListed(d.accepted, live, g, g.scans[i].category);
    PlanAdvances(live, g.scans, i);
    LinkedHandOver(d, live, g, g.scans[i].category, xs[k]);
  }

  /** Nothing is in the way of any hand-over. */
  predicate Calm(meets: seq<Meets>) { forall i :: 0 <= i < |meets| ==> meets[i] == Meets(false, false) }

  lemma NextHandOver(d: Disk, live: Checkpoint, g: Goal, i: nat, xs: seq<Change>, k: nat, meets: seq<Meets>, calm: bool)
    requires i < |g.scans| && Separate(g.scans) && k < |xs| && Underway(d, live, g, i, xs, k) && (calm ==> Calm(meets))
    ensures Arrives(d, HandOver(d, live, g.scans[i].category, xs[k], MeetsAt(meets, k)), k + 1,
                    UnderwayAt(g, i, xs), Resumable(g), Halfway(g, calm))
  {
    LinkedIsAhead(d, live, g);
    UnderwayNext(d, live, g, i, xs, k);
    HandOverArrives(d, live, g.scans[i].category, xs[k], MeetsAt(meets, k), k + 1, UnderwayAt(g, i, xs), Resumable(g), Halfway(g, calm));
  }

  lemma HandOversLead(g: Goal, i: nat, xs: seq<Change>, meets: seq<Meets>, calm: bool)
    requires i < |g.scans| && Separate(g.scans) && (calm ==> Calm(meets))
    ensures Leads(HandOvers(g.scans[i].category, xs, meets), |xs|, UnderwayAt(g, i, xs), Resumable(g), Halfway(g, calm))
  {
    var c, at := g.scans[i].category, UnderwayAt(g, i, xs);
    forall k: nat, e: Disk, l: Checkpoint | k < |xs| && at(k, e, l)
      ensures Arrives(e, HandOvers(c, xs, meets)(k, e, l), k + 1, at, Resumable(g), Halfway(g, calm))
    {
      NextHandOver(e, l, g, i, xs, k, meets, calm);
    }
  }

  ghost predicate LinkedTo(d: Disk, live: Checkpoint, g: Goal, i: nat) {
    i <= |g.scans| && Linked(d, live, g) && Done(live, g.scans, i)
  }

  ghost function LinkedAt(g: Goal): (nat, Disk, Checkpoint) -> bool {
    (i: nat, e: Disk, l: Checkpoint) => LinkedTo(e, l, g, i)
  }

  lemma FinishedIsAhead(events: seq<Event>, live: Checkpoint, g: Goal, i: nat, n: nat)
    requires i < |g.scans| && Separate(g.scans) && AheadBy(events, live, g, n) && Done(live, g.scans, i)
    requires Differences(live, g.scans[i]) == []
    ensures AheadBy(events, Finished(live, g.scans[i].category, Keyed(g.scans[i].rows)), g, n)
  {
    FinishedStaysFaithful(live, events[..|events| - n], g.scans[i]);
    PlanFinishes(live, g.scans, i);
  }

  lemma ScanEnds(d: Disk, live: Checkpoint, g: Goal, i: nat)
    requires i < |g.scans| && Separate(g.scans) && LinkedTo(d, live, g, i) && Differences(live, g.scans[i]) == []
    ensures LinkedTo(d, Finished(live, g.scans[i].category, Keyed(g.scans[i].rows)), g, i + 1)
  {
    var next := Finished(live, g.scans[i].category, Keyed(g.scans[i].rows));
    PlanFinishes(live, g.scans, i);
    var m: nat, n: nat :| LinkBy(d, live, g, m, n);
    FinishedIsAhead(d.accepted, live, g, i, n);
    assert LinkBy(d, next, g, m, n);
  }

  lemma ScanArrives(d: Disk, live: Checkpoint, g: Goal, i: nat, meets: seq<Meets>, calm: bool)
    requires i < |g.scans| && Separate(g.scans) && LinkedTo(d, live, g, i) && (calm ==> Calm(meets))
    ensures Arrives(d, ScanOne(d, live, g.scans[i].(meets := meets)), i + 1, LinkedAt(g), Resumable(g), Halfway(g, calm))
  {
    var s := g.scans[i];
    var xs := Differences(live, s);
    assert xs[0..] == xs;
    HandOversLead(g, i, xs, meets, calm);
    WorkReaches(d, live, HandOvers(s.category, xs, meets), |xs|, UnderwayAt(g, i, xs), Resumable(g), Halfway(g, calm));
    var p := WorkTo(d, live, HandOvers(s.category, xs, meets), |xs|);
    if p.open { ScanEnds(After(d, p.trace), p.live, g, i); }
  }

  /** The same snapshot, with what else its hand-overs meet; nothing, where the list is too short. */
  function Meeting(scans: seq<Scan>, meets: seq<seq<Meets>>): (r: seq<Scan>)
    ensures |r| == |scans| && forall i :: 0 <= i < |scans| ==> r[i] == scans[i].(meets := if i < |meets| then meets[i] else [])
  {
    seq(|scans|, i requires 0 <= i < |scans| => scans[i].(meets := if i < |meets| then meets[i] else []))
  }

  lemma NextScan(g: Goal, i: nat, d: Disk, live: Checkpoint, meets: seq<seq<Meets>>, calm: bool)
    requires i < |g.scans| && Separate(g.scans) && LinkedTo(d, live, g, i) && (calm ==> meets == [])
    ensures Arrives(d, Scans(Meeting(g.scans, meets))(i, d, live), i + 1, LinkedAt(g), Resumable(g), Halfway(g, calm))
  {
    ScanArrives(d, live, g, i, if i < |meets| then meets[i] else [], calm);
  }

  lemma ScansLead(g: Goal, meets: seq<seq<Meets>>, calm: bool)
    requires Separate(g.scans) && (calm ==> meets == [])
    ensures Leads(Scans(Meeting(g.scans, meets)), |g.scans|, LinkedAt(g), Resumable(g), Halfway(g, calm))
  {
    forall i: nat, e: Disk, l: Checkpoint | i < |g.scans| && LinkedTo(e, l, g, i) { NextScan(g, i, e, l, meets, calm); }
  }

  /** A poll of the snapshot, from a state that can be resumed from. */
  lemma PollArrives(d: Disk, g: Goal, meets: seq<seq<Meets>>, calm: bool)
    requires Separate(g.scans) && Resumable(g)(d) && (calm ==> meets == [])
    ensures Arrives(d, WorkTo(d, d.saved, Scans(Meeting(g.scans, meets)), |g.scans|), |g.scans|, LinkedAt(g), Resumable(g), Halfway(g, calm))
  {
    AheadIsLinked(d, g);
    ScansLead(g, meets, calm);
    WorkReaches(d, d.saved, Scans(Meeting(g.scans, meets)), |g.scans|, LinkedAt(g), Resumable(g), Halfway(g, calm));
  }

  lemma PollStaysResumable(d: Disk, g: Goal, meets: seq<seq<Meets>>)
    requires Separate(g.scans) && Resumable(g)(d)
    ensures AllHold(PollTrace(d, Meeting(g.scans, meets)), Resumable(g))
  {
    PollArrives(d, g, meets, false);
    var p := WorkTo(d, d.saved, Scans(Meeting(g.scans, meets)), |g.scans|);
    if p.open { LinkedIsAhead(After(d, p.trace), p.live, g); }
  }

  // ---- any number of polls, and one that nothing disturbs ---------------------------------------------

  /** A poll of the snapshot that is interrupted by what it meets, or dies after `cut` commits, or both. */
  datatype Try = Try(meets: seq<seq<Meets>>, cut: nat)

  function Tries(d: Disk, scans: seq<Scan>, tries: seq<Try>): Disk {
    if tries == [] then d
    else
      var before, last := Tries(d, scans, tries[..|tries| - 1]), tries[|tries| - 1];
      Cut(before, PollTrace(before, Meeting(scans, last.meets)), last.cut)
  }

  lemma CutStays(d: Disk, t: seq<Disk>, cut: nat, ok: Disk -> bool)
    requires ok(d) && AllHold(t, ok)
    ensures ok(Cut(d, t, cut))
  {
    if cut > 0 && t != [] { assert ok(t[if cut < |t| then cut - 1 else |t| - 1]); }
  }

  lemma {:induction false} TriesStayResumable(d: Disk, g: Goal, tries: seq<Try>)
    requires Separate(g.scans) && Resumable(g)(d)
    ensures Resumable(g)(Tries(d, g.scans, tries))
  {
    if tries != [] {
      var before, last := Tries(d, g.scans, tries[..|tries| - 1]), tries[|tries| - 1];
      TriesStayResumable(d, g, tries[..|tries| - 1]);
      PollStaysResumable(before, g, last.meets);
      CutStays(before, PollTrace(before, Meeting(g.scans, last.meets)), last.cut, Resumable(g));
    }
  }

  /** With every category done nothing is left of the plan, so everything is stored and counted. */
  lemma NothingLeft(events: seq<Event>, live: Checkpoint, g: Goal)
    requires Ahead(events, live, g) && Done(live, g.scans, |g.scans|)
    ensures Faithful(live, events) && events == g.total
  {
    var n: nat :| AheadBy(events, live, g, n);
    PlanSkips(live, g.scans, |g.scans|);
    assert n == 0 && events[..|events| - 0] == events;
  }

  lemma CalmPoll(d: Disk, g: Goal)
    requires Separate(g.scans) && Resumable(g)(d)
    ensures var done := After(d, PollTrace(d, Meeting(g.scans, [])));
            Faithful(done.saved, done.accepted) && done.accepted == g.total && Done(done.saved, g.scans, |g.scans|)
  {
    PollArrives(d, g, [], true);
    var p := WorkTo(d, d.saved, Scans(Meeting(g.scans, [])), |g.scans|);
    LinkedIsAhead(After(d, p.trace), p.live, g);
    NothingLeft(After(d, p.trace).accepted, p.live, g);
  }

  /**
   * After any clean runs: any number of polls of one snapshot, each interrupted or dying anywhere, and
   * one that nothing disturbs leave exactly the events that the last alone would have left, each stored
   * once, the stream replaying to the checkpoint, and the checkpoint holding the snapshot.
   */
  lemma SameSnapshotRecovers(polls: seq<seq<Scan>>, scans: seq<Scan>, tries: seq<Try>)
    requires Separate(scans)
    ensures var d := Polls(Empty(), polls);
            var crashed := Tries(d, scans, tries);
            var done := After(crashed, PollTrace(crashed, Meeting(scans, [])));
            && Faithful(done.saved, done.accepted)
            && done.accepted == After(d, PollTrace(d, Meeting(scans, []))).accepted
            && forall i :: 0 <= i < |scans| ==> Known(done.saved, scans[i].category) == Keyed(scans[i].rows)
  {
    var d := Polls(Empty(), polls);
    var g := Goal(scans, d.accepted + Plan(d.saved, scans, 0));
    StreamRebuildsInventory(polls);
    FaithfulIsAhead(d.accepted, d.saved, scans);
    TriesStayResumable(d, g, tries);
    CalmPoll(Tries(d, scans, tries), g);
    CalmPoll(d, g);
  }

  /** A different snapshot after the crash takes a sequence number a second time. */
  lemma RepeatedNumber(a: Item, b: Item)
    requires a.key != b.key
    ensures var d := Empty();
            var crashed := Cut(d, PollTrace(d, [Scan(Devices, [a], [])]), 1);
            var done := After(crashed, PollTrace(crashed, [Scan(Devices, [b], [])]));
            |done.accepted| == 2 && done.accepted[0].sequence == done.accepted[1].sequence == 0
  {
    var d := Empty();
    OneDevice(d, a);
    var crashed := Cut(d, PollTrace(d, [Scan(Devices, [a], [])]), 1);
    OneDevice(crashed, b);
  }

  lemma OneDevice(d: Disk, x: Item)
    requires d.saved == Empty().saved && forall e :: e in d.accepted ==> e.key != x.key
    ensures var t := PollTrace(d, [Scan(Devices, [x], [])]);
            var e := Event(Devices, x.key, x.row, Present, 0);
            |t| == 3 && t[0] == d.(accepted := d.accepted + [e]) && t[2].accepted == d.accepted + [e]
  {
    var scan := Scan(Devices, [x], []);
    var live := d.saved;
    assert [x][..0] == [];
    assert Keyed([x]) == Dict([x.key], map[x.key := x.row]);
    var y := Change(x.key, x.row, Present);
    assert [x.key][..0] == [];
    assert Arrivals(map[], map[x.key := x.row], true, [x.key]) == [y];
    assert Differences(live, scan) == [y];
    var work := HandOvers(Devices, [y], []);
    var h := HandOver(d, live, Devices, y, Meets(false, false));
    assert WorkTo(d, live, work, 0) == Progress([], live, true);
    assert WorkTo(d, live, work, 1) == Progress([] + h.trace, h.live, true);
    var s := ScanOne(d, live, scan);
    assert s.trace == h.trace && s.open;
    assert WorkTo(d, live, Scans([scan]), 0) == Progress([], live, true);
    assert WorkTo(d, live, Scans([scan]), 1) == Progress([] + s.trace, s.live, s.open);
  }
}
