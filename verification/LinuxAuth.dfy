/** The authentication-log tail: records are submitted in file order and the offset is saved after
    each submission, so a crash can only make the collector read a record again. */
module LinuxAuth {
  import opened Wrappers

  // ---- the log file -----------------------------------------------------------------

  const MAX_LINE := 32768
  const MAX_READS := 500

  datatype Read = Line(end: nat) | Incomplete | Oversized

  function Newline(file: string, pos: nat): (r: Option<nat>)
    ensures r.Some? ==> pos <= r.value < |file| && file[r.value] == '\n'
    decreases |file| - pos
  {
    if pos >= |file| then None else if file[pos] == '\n' then Some(pos) else Newline(file, pos + 1)
  }

  /** Reading one record at `pos`: up to the newline, unless it is too long or still being written. */
  function ReadAt(file: string, pos: nat): (r: Read)
    ensures r.Line? ==> pos < r.end <= |file|
  {
    match Newline(file, pos)
    case Some(n) => if n + 1 - pos <= MAX_LINE then Line(n + 1) else Oversized
    case None => if |file| > pos + MAX_LINE then Oversized else Incomplete
  }

  /** What the parser makes of a record; `Auth` is a login attempt. */
  datatype Parsed = Auth | Other | Malformed

  /** The event of a record. Its id is derived from the file, the position and the bytes. */
  datatype Event = Event(position: nat, line: string)

  // ---- one poll -------------------------------------------------------------------------

  /** The file, the saved offset, and the accepted events in the order they were stored. */
  datatype Disk = Disk(file: string, saved: nat, accepted: seq<Event>)

  /** What one read meets: bytes appended before it, and whether the collector is being stopped or
      the queue is full when the event is handed over. */
  datatype Meets = Meets(grown: string, stopped: bool, full: bool)

  /** `open` while the poll goes on reading. */
  datatype Progress = Progress(trace: seq<Disk>, offset: nat, open: bool)

  /** An event already stored is not stored again, even when the queue is full. */
  function Submit(d: Disk, e: Event): Disk {
    if e in d.accepted then d else d.(accepted := d.accepted + [e])
  }

  function ReadOne(d: Disk, offset: nat, parse: string -> Parsed, m: Meets): Progress {
    var d1 := d.(file := d.file + m.grown);
    match ReadAt(d1.file, offset)
    case Incomplete => Progress([d1], offset, false)
    case Oversized => Progress([d1], offset, false)
    case Line(end) =>
      var line := d1.file[offset..end];
      if parse(line) != Auth then Progress([d1], end, true)
      else if m.stopped || (m.full && Event(offset, line) !in d.accepted) then Progress([d1], offset, false)
      else
        var stored := Submit(d1, Event(offset, line));
        Progress([d1, stored, stored.(saved := offset)], end, true)
  }

  function PollTo(d: Disk, parse: string -> Parsed, meets: nat -> Meets, k: nat): Progress {
    if k == 0 then Progress([], if |d.file| < d.saved then 0 else d.saved, true)
    else
      var before := PollTo(d, parse, meets, k - 1);
      if !before.open then before
      else
        var next := ReadOne(After(d, before.trace), before.offset, parse, meets(k - 1));
        Progress(before.trace + next.trace, next.offset, next.open)
  }

  /** Whether it ends, is stopped or raises, a poll saves the offset it reached. */
  function PollTrace(d: Disk, parse: string -> Parsed, meets: nat -> Meets): seq<Disk> {
    var p := PollTo(d, parse, meets, MAX_READS);
    p.trace + [After(d, p.trace).(saved := p.offset)]
  }

  class Collector {
    const store: Database<Disk>
    const parse: string -> Parsed
    var offset: nat

    constructor (store: Database<Disk>, parse: string -> Parsed)
      ensures this.store == store && this.parse == parse && offset == store.state.saved
    {
      this.store, this.parse := store, parse;
      this.offset := store.state.saved;
    }

    /** Read and hand over one record; false ends the poll. */
    method Step(m: Meets) returns (open: bool)
      modifies store, this`offset
      ensures var p := ReadOne(old(store.state), old(offset), parse, m);
              store.Reached(old(store.state), old(store.trail), p.trace) && offset == p.offset && open == p.open
    {
      ghost var trail := store.trail;
      store.Commit(store.state.(file := store.state.file + m.grown));
      var d := store.state;
      var read := ReadAt(d.file, offset);
      if !read.Line? { return false; }
      var line := d.file[offset..read.end];
      if parse(line) == Auth {
        var e := Event(offset, line);
        if m.stopped || (m.full && e !in d.accepted) { return false; }
        store.Commit(if e in d.accepted then d else d.(accepted := d.accepted + [e]));
        ghost var stored := store.state;
        store.Commit(store.state.(saved := offset));
        assert store.trail == trail + [d, stored, store.state];
      }
      offset := read.end;
      return true;
    }

    method Poll(meets: nat -> Meets)
      requires offset == store.state.saved
      modifies store, this`offset
      ensures store.Reached(old(store.state), old(store.trail), PollTrace(old(store.state), parse, meets))
      ensures offset == store.state.saved
    {
      ghost var start, trail := store.state, store.trail;
      if |store.state.file| < offset { offset := 0; }
      var i, open := 0, true;
      while i < MAX_READS && open
        invariant 0 <= i <= MAX_READS
        invariant var p := PollTo(start, parse, meets, i);
                  store.Reached(start, trail, p.trace) && offset == p.offset && open == p.open
      {
        ghost var mid, p := store.state, PollTo(start, parse, meets, i);
        ghost var at := offset;
        open := Step(meets(i));
        store.Chain(start, trail, p.trace, ReadOne(mid, at, parse, meets(i)).trace);
        i := i + 1;
      }
      Settled(start, parse, meets, i, MAX_READS);
      ghost var mid := store.state;
      store.Commit(store.state.(saved := offset));
      store.Chain(start, trail, PollTo(start, parse, meets, MAX_READS).trace, [store.state]);
    }
  }

  /** A poll that has stopped reading stays as it is. */
  lemma {:induction false} Settled(d: Disk, parse: string -> Parsed, meets: nat -> Meets, k: nat, n: nat)
    requires k <= n && (k < n ==> !PollTo(d, parse, meets, k).open)
    ensures PollTo(d, parse, meets, n) == PollTo(d, parse, meets, k)
    decreases n
  {
    if k < n - 1 {
      Settled(d, parse, meets, k, n - 1);
    }
  }
}
