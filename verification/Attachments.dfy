/** The attachment collector: successive snapshots emitted as resumable change events. */
module Attachments {
  import opened Wrappers

  // ---- ordered dictionaries --------------------------------------------------------

  type Key = string
  type Row = map<string, string>

  datatype Item = Item(key: Key, row: Row)

  /** A dictionary and its insertion order. */
  datatype Dict = Dict(order: seq<Key>, rows: map<Key, Row>)

  function EmptyDict(): Dict { Dict([], map[]) }

  function Get(rows: map<Key, Row>, k: Key): Option<Row> { if k in rows then Some(rows[k]) else None }

  /** Assignment keeps the place of a key that is present. */
  function Put(d: Dict, k: Key, row: Row): Dict { Dict(if k in d.rows then d.order else d.order + [k], d.rows[k := row]) }

  function Without(order: seq<Key>, k: Key): seq<Key> {
    if order == [] then []
    else
      var before := Without(order[..|order| - 1], k);
      if order[|order| - 1] == k then before else before + [order[|order| - 1]]
  }

  function Drop(d: Dict, k: Key): Dict { Dict(Without(d.order, k), d.rows - {k}) }

  // ---- checkpoints and events ----------------------------------------------------------

  datatype Category = Devices | Interfaces | Neighbors | Executions | Connections

  /** The categories whose departures are reported. */
  predicate Tracked(c: Category) { c in {Devices, Interfaces, Neighbors} }

  datatype Action = Present | Added | Changed | Removed

  /** An event's id is derived from all of these, so equal events are the same event. */
  datatype Event = Event(category: Category, key: Key, row: Row, action: Action, sequence: nat)

  datatype Checkpoint = Checkpoint(dicts: map<Category, Dict>, initialized: set<Category>, sequence: nat)

  function Known(cp: Checkpoint, c: Category): Dict { if c in cp.dicts then cp.dicts[c] else EmptyDict() }

  datatype Disk = Disk(saved: Checkpoint, accepted: seq<Event>)

  // ---- one snapshot against the checkpoint -------------------------------------------------

  datatype Change = Change(key: Key, row: Row, action: Action)

  /** The rows of one available category, keyed; a later row replaces an earlier one of its key. */
  function Keyed(rows: seq<Item>): Dict {
    if rows == [] then EmptyDict() else Put(Keyed(rows[..|rows| - 1]), rows[|rows| - 1].key, rows[|rows| - 1].row)
  }

  /** How the row of `k`, if it is in `current`, departs from `previous`. */
  function Arrival(previous: map<Key, Row>, current: map<Key, Row>, initial: bool, k: Key): seq<Change> {
    if k in current && Get(previous, k) != Some(current[k]) then
      [Change(k, current[k], if initial then Present else if k !in previous then Added else Changed)]
    else []
  }

  function Arrivals(previous: map<Key, Row>, current: map<Key, Row>, initial: bool, order: seq<Key>): seq<Change> {
    if order == [] then []
    else Arrivals(previous, current, initial, order[..|order| - 1]) + Arrival(previous, current, initial, order[|order| - 1])
  }

  function Departure(previous: map<Key, Row>, current: map<Key, Row>, k: Key): seq<Change> {
    if k in previous && k !in current then [Change(k, previous[k], Removed)] else []
  }

  function Departures(previous: map<Key, Row>, current: map<Key, Row>, order: seq<Key>): seq<Change> {
    if order == [] then []
    else Departures(previous, current, order[..|order| - 1]) + Departure(previous, current, order[|order| - 1])
  }

  function Changes(previous: Dict, current: Dict, initial: bool, c: Category): seq<Change> {
    Arrivals(previous.rows, current.rows, initial, current.order)
    + if Tracked(c) then Departures(previous.rows, current.rows, previous.order) else []
  }

  function ApplyChange(d: Dict, x: Change): Dict { if x.action == Removed then Drop(d, x.key) else Put(d, x.key, x.row) }

  /** What a hand-over meets: the collector being stopped, or a full queue. */
  datatype Meets = Meets(stopped: bool, full: bool)

  /** A list too short leaves the remaining hand-overs undisturbed. */
  function MeetsAt(meets: seq<Meets>, i: nat): Meets { if i < |meets| then meets[i] else Meets(false, false) }

  /** `live` is the collector's own checkpoint; `open` while the poll goes on. */
  datatype Progress = Progress(trace: seq<Disk>, live: Checkpoint, open: bool)

  function Submit(d: Disk, e: Event): Disk { if e in d.accepted then d else d.(accepted := d.accepted + [e]) }

  function Advance(live: Checkpoint, c: Category, x: Change): Checkpoint {
    live.(dicts := live.dicts[c := ApplyChange(Known(live, c), x)], sequence := live.sequence + 1)
  }

  /** Hand over one change; the checkpoint saved with it does not include it yet. */
  function HandOver(d: Disk, live: Checkpoint, c: Category, x: Change, m: Meets): Progress {
    var e := Event(c, x.key, x.row, x.action, live.sequence);
    if m.stopped || (m.full && e !in d.accepted) then Progress([], live, false)
    else
      var stored := Submit(d, e);
      Progress([stored, stored.(saved := live)], Advance(live, c, x), true)
  }

  // ---- work that an interruption ends ----------------------------------------------------------

  type Work = (nat, Disk, Checkpoint) -> Progress

  /** The first `k` pieces of work, up to the one that is interrupted. */
  function WorkTo(d: Disk, live: Checkpoint, work: Work, k: nat): Progress {
    if k == 0 then Progress([], live, true)
    else
      var before := WorkTo(d, live, work, k - 1);
      if !before.open then before
      else
        var next := work(k - 1, After(d, before.trace), before.live);
        Progress(before.trace + next.trace, next.live, next.open)
  }

  lemma WorkNext(d: Disk, live: Checkpoint, work: Work, k: nat, before: Progress, next: Progress)
    requires before == WorkTo(d, live, work, k) && before.open
    requires next == work(k, After(d, before.trace), before.live)
    ensures WorkTo(d, live, work, k + 1) == Progress(before.trace + next.trace, next.live, next.open)
    ensures After(d, before.trace + next.trace) == After(After(d, before.trace), next.trace)
  {}

  /** Work that has been interrupted stays as it is. */
  lemma {:induction false} Settled(d: Disk, live: Checkpoint, work: Work, k: nat, n: nat)
    requires k <= n && (k < n ==> !WorkTo(d, live, work, k).open)
    ensures WorkTo(d, live, work, n) == WorkTo(d, live, work, k)
    decreases n
  {
    if k < n - 1 { Settled(d, live, work, k, n - 1); }
  }

  function HandOvers(c: Category, xs: seq<Change>, meets: seq<Meets>): Work {
    (i: nat, d: Disk, live: Checkpoint) => if i < |xs| then HandOver(d, live, c, xs[i], MeetsAt(meets, i)) else Progress([], live, true)
  }

  /** A category the snapshot could read, with what its hand-overs meet. */
  datatype Scan = Scan(category: Category, rows: seq<Item>, meets: seq<Meets>)

  function Finished(live: Checkpoint, c: Category, current: Dict): Checkpoint {
    live.(dicts := live.dicts[c := current], initialized := live.initialized + {c})
  }

  function ScanOne(d: Disk, live: Checkpoint, s: Scan): Progress {
    var current := Keyed(s.rows);
    var xs := Changes(Known(live, s.category), current, s.category !in live.initialized, s.category);
    var p := WorkTo(d, live, HandOvers(s.category, xs, s.meets), |xs|);
    if p.open then p.(live := Finished(p.live, s.category, current)) else p
  }

  function Scans(scans: seq<Scan>): Work {
    (i: nat, d: Disk, live: Checkpoint) => if i < |scans| then ScanOne(d, live, scans[i]) else Progress([], live, true)
  }

  /** Whether it ends, is stopped or raises, a poll saves the checkpoint it reached. */
  function PollTrace(d: Disk, scans: seq<Scan>): seq<Disk> {
    var p := WorkTo(d, d.saved, Scans(scans), |scans|);
    p.trace + [After(d, p.trace).(saved := p.live)]
  }

  // ---- the collector ---------------------------------------------------------------------------

  class Collector {
    const store: Database<Disk>
    var live: Checkpoint

    constructor (store: Database<Disk>)
      ensures this.store == store && live == store.state.saved
    {
      this.store := store;
      this.live := store.state.saved;
    }

    /** The commits of one more piece of work follow those made so far. */
    lemma Extend(start: Disk, before: Checkpoint, trail: seq<Disk>, work: Work, i: nat, p: Progress, next: Progress)
      requires p == WorkTo(start, before, work, i) && p.open && next == work(i, After(start, p.trace), p.live)
      requires store.Reached(After(start, p.trace), trail + p.trace, next.trace)
      ensures WorkTo(start, before, work, i + 1) == Progress(p.trace + next.trace, next.live, next.open)
      ensures store.Reached(start, trail, p.trace + next.trace)
    {
      store.Chain(start, trail, p.trace, next.trace);
      WorkNext(start, before, work, i, p, next);
    }

    method Emit(c: Category, x: Change, m: Meets) returns (open: bool)
      modifies store, this`live
      ensures var p := HandOver(old(store.state), old(live), c, x, m);
              store.Reached(old(store.state), old(store.trail), p.trace) && live == p.live && open == p.open
    {
      ghost var trail := store.trail;
      var d := store.state;
      var e := Event(c, x.key, x.row, x.action, live.sequence);
      if m.stopped || (m.full && e !in d.accepted) { return false; }
      store.Commit(if e in d.accepted then d else d.(accepted := d.accepted + [e]));
      ghost var stored := store.state;
      store.Commit(store.state.(saved := live));
      assert store.trail == trail + [stored, store.state];
      var previous := Known(live, c);
      previous := if x.action == Removed then Drop(previous, x.key) else Put(previous, x.key, x.row);
      live := live.(dicts := live.dicts[c := previous], sequence := live.sequence + 1);
      return true;
    }

    /** One more change, after the category has had `p` done. */
    method EmitMore(c: Category, xs: seq<Change>, meets: seq<Meets>, i: nat,
        ghost start: Disk, ghost before: Checkpoint, ghost trail: seq<Disk>, ghost p: Progress)
      returns (open: bool, ghost q: Progress)
      requires i < |xs| && p == WorkTo(start, before, HandOvers(c, xs, meets), i) && p.open
      requires store.Reached(start, trail, p.trace) && live == p.live
      modifies store, this`live
      ensures q == WorkTo(start, before, HandOvers(c, xs, meets), i + 1)
      ensures store.Reached(start, trail, q.trace) && live == q.live && open == q.open
    {
      ghost var next := HandOver(store.state, live, c, xs[i], MeetsAt(meets, i));
      open := Emit(c, xs[i], MeetsAt(meets, i));
      Extend(start, before, trail, HandOvers(c, xs, meets), i, p, next);
      q := Progress(p.trace + next.trace, next.live, next.open);
    }

    method EmitAll(c: Category, xs: seq<Change>, meets: seq<Meets>) returns (open: bool)
      modifies store, this`live
      ensures var p := WorkTo(old(store.state), old(live), HandOvers(c, xs, meets), |xs|);
              store.Reached(old(store.state), old(store.trail), p.trace) && live == p.live && open == p.open
    {
      ghost var start, trail, before := store.state, store.trail, live;
      ghost var p := Progress([], live, true);
      open := true;
      for i := 0 to |xs|
        invariant p == WorkTo(start, before, HandOvers(c, xs, meets), i) && p.open && open
        invariant store.Reached(start, trail, p.trace) && live == p.live
      {
        open, p := EmitMore(c, xs, meets, i, start, before, trail, p);
        if !open {
          Settled(start, before, HandOvers(c, xs, meets), i + 1, |xs|);
          return;
        }
      }
    }

    method ScanCategory(s: Scan) returns (open: bool)
      modifies store, this`live
      ensures var p := ScanOne(old(store.state), old(live), s);
              store.Reached(old(store.state), old(store.trail), p.trace) && live == p.live && open == p.open
    {
      var current := Keyed(s.rows);
      var xs := Changes(Known(live, s.category), current, s.category !in live.initialized, s.category);
      open := EmitAll(s.category, xs, s.meets);
      if open { live := live.(dicts := live.dicts[s.category := current], initialized := live.initialized + {s.category}); }
    }

    /** One more category, after the poll has done `p`. */
    method ScanMore(scans: seq<Scan>, i: nat, ghost start: Disk, ghost before: Checkpoint, ghost trail: seq<Disk>, ghost p: Progress)
      returns (open: bool, ghost q: Progress)
      requires i < |scans| && p == WorkTo(start, before, Scans(scans), i) && p.open
      requires store.Reached(start, trail, p.trace) && live == p.live
      modifies store, this`live
      ensures q == WorkTo(start, before, Scans(scans), i + 1)
      ensures store.Reached(start, trail, q.trace) && live == q.live && open == q.open
    {
      ghost var next := ScanOne(store.state, live, scans[i]);
      open := ScanCategory(scans[i]);
      Extend(start, before, trail, Scans(scans), i, p, next);
      q := Progress(p.trace + next.trace, next.live, next.open);
    }

    method ScanAll(scans: seq<Scan>)
      modifies store, this`live
      ensures var p := WorkTo(old(store.state), old(live), Scans(scans), |scans|);
              store.Reached(old(store.state), old(store.trail), p.trace) && live == p.live
    {
      ghost var start, trail, before := store.state, store.trail, live;
      ghost var p := Progress([], live, true);
      for i := 0 to |scans|
        invariant p == WorkTo(start, before, Scans(scans), i) && p.open
        invariant store.Reached(start, trail, p.trace) && live == p.live
      {
        var open;
        open, p := ScanMore(scans, i, start, before, trail, p);
        if !open {
          Settled(start, before, Scans(scans), i + 1, |scans|);
          return;
        }
      }
    }

    /** One poll over the categories that could be read. */
    method Poll(scans: seq<Scan>)
      requires live == store.state.saved
      modifies store, this`live
      ensures store.Reached(old(store.state), old(store.trail), PollTrace(old(store.state), scans))
      ensures live == store.state.saved
    {
      ghost var start, trail := store.state, store.trail;
      ScanAll(scans);
      store.Commit(store.state.(saved := live));
      store.Chain(start, trail, WorkTo(start, start.saved, Scans(scans), |scans|).trace, [store.state]);
    }
  }
}
