/** Replaying the accepted attachment events rebuilds the inventory in the checkpoint. */
module AttachmentsRuns {
  import opened Wrappers
  import opened Attachments

  /** The inventory of one category as a reader of the event stream rebuilds it. */
  function Replay(events: seq<Event>, c: Category): map<Key, Row> {
    if events == [] then map[]
    else
      var e, before := events[|events| - 1], Replay(events[..|events| - 1], c);
      if e.category != c then before else if e.action == Removed then before - {e.key} else before[e.key := e.row]
  }

  ghost predicate Agree(cp: Checkpoint, events: seq<Event>) {
    forall c :: Tracked(c) ==> Known(cp, c).rows == Replay(events, c)
  }

  /** Sequence numbers only rise, and the checkpoint's is still free. */
  predicate Numbered(cp: Checkpoint, events: seq<Event>) {
    && (forall i, j :: 0 <= i < j < |events| ==> events[i].sequence < events[j].sequence)
    && (forall i :: 0 <= i < |events| ==> events[i].sequence < cp.sequence)
  }

  ghost predicate Faithful(cp: Checkpoint, events: seq<Event>) {
    Agree(cp, events) && Numbered(cp, events) && forall c :: Tracked(c) ==> Listed(Known(cp, c))
  }

  /** The last `n` accepted events are the next ones the checkpoint would number. */
  ghost predicate Behind(cp: Checkpoint, events: seq<Event>, n: nat) {
    && n <= |events| && Faithful(cp, events[..|events| - n])
    && forall i :: |events| - n <= i < |events| ==> events[i].sequence == cp.sequence + (i - (|events| - n))
  }

  // ---- dictionaries --------------------------------------------------------------------

  predicate Unique(order: seq<Key>) { forall i, j :: 0 <= i < j < |order| ==> order[i] != order[j] }

  /** The order lists exactly the keys, each once. */
  ghost predicate Listed(d: Dict) { (forall k :: k in d.rows <==> k in d.order) && Unique(d.order) }

  lemma UniqueAppend(order: seq<Key>, k: Key)
    requires Unique(order) && k !in order
    ensures Unique(order + [k])
  {}

  lemma PutListed(d: Dict, k: Key, row: Row)
    requires Listed(d)
    ensures Listed(Put(d, k, row))
  {
    if k !in d.rows { UniqueAppend(d.order, k); }
  }

  lemma {:induction false} KeyedListed(rows: seq<Item>)
    ensures Listed(Keyed(rows))
  {
    if rows != [] {
      KeyedListed(rows[..|rows| - 1]);
      PutListed(Keyed(rows[..|rows| - 1]), rows[|rows| - 1].key, rows[|rows| - 1].row);
    }
  }

  lemma {:induction false} WithoutLists(order: seq<Key>, k: Key)
    ensures forall q :: q in Without(order, k) <==> q in order && q != k
  {
    if order != [] {
      WithoutLists(order[..|order| - 1], k);
      assert order == order[..|order| - 1] + [order[|order| - 1]];
    }
  }

  lemma {:induction false} WithoutUnique(order: seq<Key>, k: Key)
    requires Unique(order)
    ensures Unique(Without(order, k))
  {
    if order != [] {
      var rest, last := order[..|order| - 1], order[|order| - 1];
      WithoutUnique(rest, k);
      WithoutLists(rest, k);
      forall i | 0 <= i < |rest| ensures rest[i] != last { assert order[i] == rest[i]; }
      UniqueAppend(Without(rest, k), last);
    }
  }

  lemma ApplyListed(d: Dict, x: Change)
    requires Listed(d)
    ensures Listed(ApplyChange(d, x))
  {
    if x.action == Removed {
      WithoutLists(d.order, x.key);
      WithoutUnique(d.order, x.key);
    } else {
      PutListed(d, x.key, x.row);
    }
  }

  // ---- changes lead from the old inventory to the new one ---------------------------------

  function ApplyAll(d: Dict, xs: seq<Change>): Dict {
    if xs == [] then d else ApplyChange(ApplyAll(d, xs[..|xs| - 1]), xs[|xs| - 1])
  }

  lemma {:induction false} ApplyBoth(d: Dict, xs: seq<Change>, ys: seq<Change>)
    ensures ApplyAll(d, xs + ys) == ApplyAll(ApplyAll(d, xs), ys)
  {
    if ys == [] { assert xs + ys == xs; }
    else {
      assert (xs + ys)[..|xs + ys| - 1] == xs + ys[..|ys| - 1];
      ApplyBoth(d, xs, ys[..|ys| - 1]);
    }
  }

  lemma {:induction false} ArrivalsArrive(d: Dict, current: map<Key, Row>, initial: bool, order: seq<Key>, q: Key)
    ensures Get(ApplyAll(d, Arrivals(d.rows, current, initial, order)).rows, q)
         == if q in order && q in current then Some(current[q]) else Get(d.rows, q)
  {
    if order != [] {
      var rest, k := order[..|order| - 1], order[|order| - 1];
      ArrivalsArrive(d, current, initial, rest, q);
      ApplyBoth(d, Arrivals(d.rows, current, initial, rest), Arrival(d.rows, current, initial, k));
      assert q in order <==> q in rest || q == k;
    }
  }

  lemma DepartOne(d: Dict, previous: map<Key, Row>, current: map<Key, Row>, k: Key, q: Key)
    ensures Get(ApplyAll(d, Departure(previous, current, k)).rows, q)
         == if q == k && k in previous && k !in current then None else Get(d.rows, q)
  {
    var xs := Departure(previous, current, k);
    if xs != [] { assert ApplyAll(d, xs) == Drop(d, k); }
  }

  lemma {:induction false} DeparturesDepart(d: Dict, previous: map<Key, Row>, current: map<Key, Row>, order: seq<Key>, q: Key)
    ensures Get(ApplyAll(d, Departures(previous, current, order)).rows, q)
         == if q in order && q in previous && q !in current then None else Get(d.rows, q)
  {
    if order != [] {
      var rest, k := order[..|order| - 1], order[|order| - 1];
      var before := Departures(previous, current, rest);
      DeparturesDepart(d, previous, current, rest, q);
      ApplyBoth(d, before, Departure(previous, current, k));
      DepartOne(ApplyAll(d, before), previous, current, k, q);
      assert q in order <==> q in rest || q == k;
    }
  }

  lemma SameRows(left: map<Key, Row>, right: map<Key, Row>)
    requires forall q :: Get(left, q) == Get(right, q)
    ensures left == right
  {
    forall q ensures (q in left <==> q in right) && (q in left ==> left[q] == right[q]) { assert Get(left, q) == Get(right, q); }
  }

  /** For a tracked category the deltas turn the previous inventory into the current one. */
  lemma ChangesReconcile(previous: Dict, current: Dict, initial: bool, c: Category)
    requires Tracked(c) && Listed(previous) && Listed(current)
    ensures ApplyAll(previous, Changes(previous, current, initial, c)).rows == current.rows
  {
    var arrivals := Arrivals(previous.rows, current.rows, initial, current.order);
    var departures := Departures(previous.rows, current.rows, previous.order);
    var done := ApplyAll(previous, arrivals + departures).rows;
    ApplyBoth(previous, arrivals, departures);
    forall q ensures Get(done, q) == Get(current.rows, q) {
      ArrivalsArrive(previous, current.rows, initial, current.order, q);
      DeparturesDepart(ApplyAll(previous, arrivals), previous.rows, current.rows, previous.order, q);
    }
    SameRows(done, current.rows);
  }

  /** A poll that finds a tracked category as it was reports nothing, and only then. */
  lemma SilentWhenUnchanged(previous: Dict, current: Dict, initial: bool, c: Category)
    requires Tracked(c) && Listed(previous) && Listed(current)
    ensures Changes(previous, current, initial, c) == [] <==> previous.rows == current.rows
  {
    ChangesReconcile(previous, current, initial, c);
    if previous.rows == current.rows {
      NoArrival(previous.rows, initial, current.order);
      NoDeparture(previous.rows, previous.order);
    }
  }

  lemma {:induction false} NoArrival(rows: map<Key, Row>, initial: bool, order: seq<Key>)
    ensures Arrivals(rows, rows, initial, order) == []
  {
    if order != [] { NoArrival(rows, initial, order[..|order| - 1]); }
  }

  lemma {:induction false} NoDeparture(rows: map<Key, Row>, order: seq<Key>)
    ensures Departures(rows, rows, order) == []
  {
    if order != [] { NoDeparture(rows, order[..|order| - 1]); }
  }

  // ---- one hand-over ------------------------------------------------------------------------

  lemma AgreeAdvanced(live: Checkpoint, events: seq<Event>, c: Category, x: Change)
    requires Agree(live, events)
    ensures Agree(Advance(live, c, x), events + [Event(c, x.key, x.row, x.action, live.sequence)])
  {
    var e := Event(c, x.key, x.row, x.action, live.sequence);
    assert (events + [e])[..|events|] == events;
  }

  lemma FaithfulAdvanced(live: Checkpoint, events: seq<Event>, c: Category, x: Change)
    requires Faithful(live, events)
    ensures Faithful(Advance(live, c, x), events + [Event(c, x.key, x.row, x.action, live.sequence)])
  {
    AgreeAdvanced(live, events, c, x);
    if Tracked(c) { ApplyListed(Known(live, c), x); }
  }

  /** The saved checkpoint counts all the accepted events but the last one or two. */
  ghost predicate Trailing(d: Disk) {
    Behind(d.saved, d.accepted, 0) || Behind(d.saved, d.accepted, 1) || Behind(d.saved, d.accepted, 2)
  }

  ghost predicate AllTrailing(trace: seq<Disk>) { forall i :: 0 <= i < |trace| ==> Trailing(trace[i]) }

  /** Between two hand-overs the saved checkpoint is at most one event behind the live one. */
  ghost predicate Near(d: Disk, live: Checkpoint) {
    && d.saved.sequence <= live.sequence <= d.saved.sequence + 1
    && Behind(d.saved, d.accepted, live.sequence - d.saved.sequence)
  }

  lemma BehindOneMore(cp: Checkpoint, events: seq<Event>, n: nat, e: Event)
    requires Behind(cp, events, n) && e.sequence == cp.sequence + n
    ensures Behind(cp, events + [e], n + 1)
  {
    assert (events + [e])[..|events + [e]| - (n + 1)] == events[..|events| - n];
  }

  /** What the collector keeps while it works, and what a crash in the middle would find. */
  ghost predicate Sound(d: Disk, live: Checkpoint) { Faithful(live, d.accepted) && Near(d, live) }

  ghost predicate Keeps(d: Disk, p: Progress) { Sound(After(d, p.trace), p.live) && AllTrailing(p.trace) }

  lemma StoredTrails(d: Disk, live: Checkpoint, e: Event)
    requires Near(d, live) && e.sequence == live.sequence
    ensures Trailing(d.(accepted := d.accepted + [e]))
  {
    var n := live.sequence - d.saved.sequence;
    BehindOneMore(d.saved, d.accepted, n, e);
    assert n + 1 == 1 || n + 1 == 2;
  }

  lemma SavedTrails(live: Checkpoint, events: seq<Event>, e: Event)
    requires Faithful(live, events) && e.sequence == live.sequence
    ensures Behind(live, events + [e], 1)
  {
    assert events[..|events| - 0] == events;
    BehindOneMore(live, events, 0, e);
  }

  lemma HandOverKeeps(d: Disk, live: Checkpoint, c: Category, x: Change, m: Meets)
    requires Sound(d, live)
    ensures Keeps(d, HandOver(d, live, c, x, m))
  {
    var e := Event(c, x.key, x.row, x.action, live.sequence);
    if !m.stopped && (!m.full || e in d.accepted) {
      assert e !in d.accepted;
      var stored := d.(accepted := d.accepted + [e]);
      var settled := stored.(saved := live);
      FaithfulAdvanced(live, d.accepted, c, x);
      StoredTrails(d, live, e);
      SavedTrails(live, d.accepted, e);
      assert Sound(settled, Advance(live, c, x)) && AllTrailing([stored, settled]);
    }
  }

  lemma {:induction false} WorkKeeps(d: Disk, live: Checkpoint, work: Work, n: nat)
    requires Sound(d, live)
    requires forall i: nat, e: Disk, l: Checkpoint :: i < n && Sound(e, l) ==> Keeps(e, work(i, e, l))
    ensures Keeps(d, WorkTo(d, live, work, n))
  {
    if n > 0 {
      WorkKeeps(d, live, work, n - 1);
      var before := WorkTo(d, live, work, n - 1);
      if before.open { WorkNext(d, live, work, n - 1, before, work(n - 1, After(d, before.trace), before.live)); }
    }
  }

  /** The collector's own map takes exactly the changes handed over. */
  lemma {:induction false} HandOversApply(d: Disk, live: Checkpoint, c: Category, xs: seq<Change>, meets: seq<Meets>, k: nat)
    requires k <= |xs|
    ensures var p := WorkTo(d, live, HandOvers(c, xs, meets), k);
            && (p.open ==> Known(p.live, c) == ApplyAll(Known(live, c), xs[..k]))
            && (forall g :: g != c ==> Known(p.live, g) == Known(live, g))
  {
    if k > 0 {
      HandOversApply(d, live, c, xs, meets, k - 1);
      assert xs[..k][..k - 1] == xs[..k - 1];
    }
  }

  lemma FinishedIsFaithful(live: Checkpoint, events: seq<Event>, c: Category, current: Dict)
    requires Faithful(live, events) && Listed(current) && (Tracked(c) ==> Known(live, c).rows == current.rows)
    ensures Faithful(Finished(live, c, current), events)
  {}

  lemma HandOversKeep(d: Disk, live: Checkpoint, c: Category, xs: seq<Change>, meets: seq<Meets>)
    requires Sound(d, live)
    ensures Keeps(d, WorkTo(d, live, HandOvers(c, xs, meets), |xs|))
  {
    var work := HandOvers(c, xs, meets);
    forall i: nat, e: Disk, l: Checkpoint | i < |xs| && Sound(e, l) ensures Keeps(e, work(i, e, l)) {
      HandOverKeeps(e, l, c, xs[i], MeetsAt(meets, i));
    }
    WorkKeeps(d, live, work, |xs|);
  }

  lemma FinishKeeps(d: Disk, p: Progress, c: Category, current: Dict)
    requires Keeps(d, p) && Listed(current) && (Tracked(c) ==> Known(p.live, c).rows == current.rows)
    ensures Keeps(d, p.(live := Finished(p.live, c, current)))
  {
    FinishedIsFaithful(p.live, After(d, p.trace).accepted, c, current);
  }

  /** Once all changes are handed over, the live map holds what was read. */
  lemma HandedOver(d: Disk, live: Checkpoint, c: Category, current: Dict, initial: bool, meets: seq<Meets>)
    requires Tracked(c) && Listed(Known(live, c)) && Listed(current)
    ensures var xs := Changes(Known(live, c), current, initial, c);
            var p := WorkTo(d, live, HandOvers(c, xs, meets), |xs|);
            p.open ==> Known(p.live, c).rows == current.rows
  {
    var xs := Changes(Known(live, c), current, initial, c);
    HandOversApply(d, live, c, xs, meets, |xs|);
    assert xs[..|xs|] == xs;
    ChangesReconcile(Known(live, c), current, initial, c);
  }

  lemma ScanKeeps(d: Disk, live: Checkpoint, s: Scan)
    requires Sound(d, live)
    ensures Keeps(d, ScanOne(d, live, s))
  {
    var c, current, initial := s.category, Keyed(s.rows), s.category !in live.initialized;
    var xs := Changes(Known(live, c), current, initial, c);
    var p := WorkTo(d, live, HandOvers(c, xs, s.meets), |xs|);
    HandOversKeep(d, live, c, xs, s.meets);
    KeyedListed(s.rows);
    if p.open {
      if Tracked(c) { HandedOver(d, live, c, current, initial, s.meets); }
      FinishKeeps(d, p, c, current);
    }
  }

  lemma ScansKeep(d: Disk, scans: seq<Scan>)
    requires Faithful(d.saved, d.accepted)
    ensures Keeps(d, WorkTo(d, d.saved, Scans(scans), |scans|))
  {
    var work := Scans(scans);
    forall i: nat, e: Disk, l: Checkpoint | i < |scans| && Sound(e, l) ensures Keeps(e, work(i, e, l)) {
      ScanKeeps(e, l, scans[i]);
    }
    assert d.accepted[..|d.accepted| - 0] == d.accepted;
    WorkKeeps(d, d.saved, work, |scans|);
  }

  // ---- whole runs -------------------------------------------------------------------------------

  function Polls(d: Disk, polls: seq<seq<Scan>>): Disk {
    if polls == [] then d else var before := Polls(d, polls[..|polls| - 1]); After(before, PollTrace(before, polls[|polls| - 1]))
  }

  function Empty(): Disk { Disk(Checkpoint(map[], {}, 0), []) }

  /**
   * Over any snapshots, unavailable categories, full queues and clean restarts, the accepted
   * events replay to the saved inventory and no sequence number is used twice.
   */
  lemma {:induction false} StreamRebuildsInventory(polls: seq<seq<Scan>>)
    ensures var d := Polls(Empty(), polls); Faithful(d.saved, d.accepted)
  {
    if polls != [] {
      StreamRebuildsInventory(polls[..|polls| - 1]);
      PollIsFaithful(Polls(Empty(), polls[..|polls| - 1]), polls[|polls| - 1]);
    }
  }

  /** A poll taken every category at most once. */
  predicate Separate(scans: seq<Scan>) { forall i, j :: 0 <= i < j < |scans| ==> scans[i].category != scans[j].category }

  /** Work on one category ends, unless interrupted, with what was read, and touches no other. */
  ghost predicate Covers(live: Checkpoint, p: Progress, c: Category, read: Dict) {
    (p.open ==> Known(p.live, c) == read) && forall g :: g != c ==> Known(p.live, g) == Known(live, g)
  }

  lemma ScanCovers(d: Disk, live: Checkpoint, s: Scan)
    ensures Covers(live, ScanOne(d, live, s), s.category, Keyed(s.rows))
  {
    var xs := Changes(Known(live, s.category), Keyed(s.rows), s.category !in live.initialized, s.category);
    HandOversApply(d, live, s.category, xs, s.meets, |xs|);
  }

  lemma {:induction false} WorkCovers(d: Disk, live: Checkpoint, work: Work, scans: seq<Scan>, taken: seq<Dict>, k: nat, c: Category)
    requires k <= |scans| == |taken| && Separate(scans)
    requires forall i, e, l :: 0 <= i < |scans| ==> Covers(l, work(i, e, l), scans[i].category, taken[i])
    ensures var p := WorkTo(d, live, work, k);
            && (p.open ==> forall i :: 0 <= i < k && scans[i].category == c ==> Known(p.live, c) == taken[i])
            && ((forall i :: 0 <= i < k ==> scans[i].category != c) ==> Known(p.live, c) == Known(live, c))
  {
    if k > 0 { WorkCovers(d, live, work, scans, taken, k - 1, c); }
  }

  lemma PollCovers(d: Disk, scans: seq<Scan>, c: Category)
    requires Faithful(d.saved, d.accepted) && Separate(scans)
    ensures var p := WorkTo(d, d.saved, Scans(scans), |scans|);
            && (p.open ==> forall i :: 0 <= i < |scans| && scans[i].category == c ==> Known(p.live, c) == Keyed(scans[i].rows))
            && ((forall i :: 0 <= i < |scans| ==> scans[i].category != c) ==> Known(p.live, c) == Known(d.saved, c))
  {
    var work := Scans(scans);
    var taken := seq(|scans|, i requires 0 <= i < |scans| => Keyed(scans[i].rows));
    forall i, e, l | 0 <= i < |scans| ensures Covers(l, work(i, e, l), scans[i].category, taken[i]) {
      ScanCovers(e, l, scans[i]);
    }
    WorkCovers(d, d.saved, work, scans, taken, |scans|, c);
  }

  lemma PollIsFaithful(d: Disk, scans: seq<Scan>)
    requires Faithful(d.saved, d.accepted)
    ensures var done := After(d, PollTrace(d, scans));
            Faithful(done.saved, done.accepted) && done.saved == WorkTo(d, d.saved, Scans(scans), |scans|).live
  {
    ScansKeep(d, scans);
  }

  /**
   * A poll that nothing interrupts leaves exactly what it read, and a category it could not
   * read stays as it was: it is never a mass disconnection.
   */
  lemma UninterruptedPollIsTheSnapshot(polls: seq<seq<Scan>>, scans: seq<Scan>, c: Category)
    requires Separate(scans) && Tracked(c)
    ensures var d := Polls(Empty(), polls);
            var open, done := WorkTo(d, d.saved, Scans(scans), |scans|).open, After(d, PollTrace(d, scans));
            && (open ==> forall i :: 0 <= i < |scans| && scans[i].category == c ==>
                 Replay(done.accepted, c) == Keyed(scans[i].rows).rows)
            && ((forall i :: 0 <= i < |scans| ==> scans[i].category != c) ==>
                 Replay(done.accepted, c) == Replay(d.accepted, c))
  {
    var d := Polls(Empty(), polls);
    StreamRebuildsInventory(polls);
    PollCovers(d, scans, c);
    PollIsFaithful(d, scans);
  }

  // ---- a crash in the middle of a poll --------------------------------------------------------------

  /** A process that dies anywhere in a poll leaves the checkpoint at most two events behind. */
  lemma CrashLosesAtMostTwo(polls: seq<seq<Scan>>, scans: seq<Scan>, cut: nat)
    ensures var d := Polls(Empty(), polls); Trailing(Cut(d, PollTrace(d, scans), cut))
  {
    var d := Polls(Empty(), polls);
    StreamRebuildsInventory(polls);
    assert d.accepted[..|d.accepted| - 0] == d.accepted;
    ScansKeep(d, scans);
    var done := After(d, PollTrace(d, scans));
    assert done.accepted[..|done.accepted| - 0] == done.accepted;
  }

  /** Taking the change that comes next counts one of the stored events. */
  lemma OneLessBehind(live: Checkpoint, events: seq<Event>, n: nat, c: Category, x: Change)
    requires 1 <= n && Behind(live, events, n) && events[|events| - n] == Event(c, x.key, x.row, x.action, live.sequence)
    ensures Behind(Advance(live, c, x), events, n - 1)
  {
    var first := |events| - n;
    assert events[..first] + [events[first]] == events[..first + 1];
    FaithfulAdvanced(live, events[..first], c, x);
  }

  /** Among the stored events only the one that comes next has its number. */
  lemma OneNumber(live: Checkpoint, events: seq<Event>, n: nat, e: Event)
    requires 1 <= n && Behind(live, events, n) && e.sequence == live.sequence
    ensures e in events <==> e == events[|events| - n]
  {
    var first := |events| - n;
    forall i | 0 <= i < |events| && i != first ensures events[i].sequence != live.sequence {
      if i < first { assert events[..first][i] == events[i]; }
    }
  }

  /**
   * After such a crash one event is made good exactly when the change handed over again is the one
   * that was stored; any other change takes the same sequence number a second time.
   */
  lemma RetryAfterCrash(d: Disk, live: Checkpoint, n: nat, c: Category, x: Change, m: Meets)
    requires 1 <= n && Behind(live, d.accepted, n) && !m.stopped && !m.full
    ensures var p, e := HandOver(d, live, c, x, m), Event(c, x.key, x.row, x.action, live.sequence);
            var events, first := After(d, p.trace).accepted, |d.accepted| - n;
            if e == d.accepted[first] then events == d.accepted && Behind(p.live, events, n - 1)
            else events == d.accepted + [e] && events[first].sequence == events[|events| - 1].sequence
  {
    var e := Event(c, x.key, x.row, x.action, live.sequence);
    OneNumber(live, d.accepted, n, e);
    if e == d.accepted[|d.accepted| - n] { OneLessBehind(live, d.accepted, n, c, x); }
  }

  // ---- what a change says -------------------------------------------------------------------------------

  /** The row of a key that is there now and was not so before: present on the first look, added or changed later. */
  predicate Arrives(previous: Dict, current: Dict, initial: bool, x: Change) {
    && x.key in current.rows && x.row == current.rows[x.key]
    && (x.key in previous.rows ==> previous.rows[x.key] != x.row)
    && x.action == if initial then Present else if x.key in previous.rows then Changed else Added
  }

  /** The last row of a key that is no longer there, in a category whose departures are reported. */
  predicate Departs(previous: Dict, current: Dict, c: Category, x: Change) {
    && c in {Devices, Interfaces, Neighbors}
    && x.key in previous.rows && x.key !in current.rows && x.row == previous.rows[x.key] && x.action == Removed
  }

  lemma {:induction false} ArrivalsMean(previous: Dict, current: Dict, initial: bool, order: seq<Key>, x: Change)
    ensures x in Arrivals(previous.rows, current.rows, initial, order) <==> x.key in order && Arrives(previous, current, initial, x)
  {
    if order != [] {
      var rest, k := order[..|order| - 1], order[|order| - 1];
      ArrivalsMean(previous, current, initial, rest, x);
      assert x.key in order <==> x.key in rest || x.key == k;
    }
  }

  lemma {:induction false} DeparturesMean(previous: Dict, current: Dict, c: Category, order: seq<Key>, x: Change)
    requires Tracked(c)
    ensures x in Departures(previous.rows, current.rows, order) <==> x.key in order && Departs(previous, current, c, x)
  {
    if order != [] {
      var rest, k := order[..|order| - 1], order[|order| - 1];
      DeparturesMean(previous, current, c, rest, x);
      assert x.key in order <==> x.key in rest || x.key == k;
    }
  }

  /** A category's changes are exactly its arrivals and, where they are reported, its departures. */
  lemma ChangesMean(previous: Dict, current: Dict, initial: bool, c: Category, x: Change)
    requires Listed(previous) && Listed(current)
    ensures x in Changes(previous, current, initial, c) <==> Arrives(previous, current, initial, x) || Departs(previous, current, c, x)
  {
    ArrivalsMean(previous, current, initial, current.order, x);
    if Tracked(c) { DeparturesMean(previous, current, c, previous.order, x); }
  }

  /** A change is taken in unless the collector is being stopped, or the queue is full and does not hold its event. */
  lemma HandOverOutcome(d: Disk, live: Checkpoint, c: Category, x: Change, m: Meets)
    ensures var p, e := HandOver(d, live, c, x, m), Event(c, x.key, x.row, x.action, live.sequence);
            && (p.open <==> !m.stopped && (m.full ==> e in d.accepted))
            && (!p.open ==> p.trace == [] && p.live == live)
            && (p.open ==>
                  && After(d, p.trace).saved == live && p.live.sequence == live.sequence + 1
                  && forall y :: y in After(d, p.trace).accepted <==> y in d.accepted || y == e)
  {}
}
