/** Exactly-once tailing over every interleaving of appends, polls, stops, full queues and crashes. */
module LinuxAuthRuns {
  import opened Wrappers
  import opened LinuxAuth

  // ---- the records of a file ---------------------------------------------------------

  /** `to` is where some number of complete records, read from `from`, ends. */
  predicate Boundary(file: string, from: nat, to: nat)
    decreases if from <= to then to - from else 0
  {
    from == to || (ReadAt(file, from).Line? && ReadAt(file, from).end <= to && Boundary(file, ReadAt(file, from).end, to))
  }

  function Emitted(file: string, parse: string -> Parsed, from: nat, end: nat): seq<Event>
    requires from <= end <= |file|
  {
    if parse(file[from..end]) == Auth then [Event(from, file[from..end])] else []
  }

  /** The events of the complete records between two positions, in file order. */
  function Expected(file: string, parse: string -> Parsed, from: nat, to: nat): seq<Event>
    requires Boundary(file, from, to)
    decreases if from <= to then to - from else 0
  {
    if from == to then []
    else
      var end := ReadAt(file, from).end;
      Emitted(file, parse, from, end) + Expected(file, parse, end, to)
  }

  lemma {:induction false} BoundaryOrder(file: string, from: nat, to: nat)
    requires Boundary(file, from, to)
    ensures from <= to && (from < to ==> to <= |file|)
    decreases if from <= to then to - from else 0
  {
    if from != to { BoundaryOrder(file, ReadAt(file, from).end, to); }
  }

  lemma {:induction false} JoinBoundary(file: string, a: nat, b: nat, c: nat)
    requires Boundary(file, a, b) && Boundary(file, b, c)
    ensures Boundary(file, a, c)
    decreases if a <= b then b - a else 0
  {
    if a != b {
      var end := ReadAt(file, a).end;
      BoundaryOrder(file, end, b);
      BoundaryOrder(file, b, c);
      JoinBoundary(file, end, b, c);
    }
  }

  /** The events from `a` are those of its record, then those behind it. */
  lemma ExpectedStep(file: string, parse: string -> Parsed, a: nat, c: nat)
    requires Boundary(file, a, c) && a != c
    ensures var end := ReadAt(file, a).end;
            a < end <= c && end <= |file| && Boundary(file, end, c)
            && Expected(file, parse, a, c) == Emitted(file, parse, a, end) + Expected(file, parse, end, c)
  {}

  lemma ThenThen(x: seq<Event>, y: seq<Event>, z: seq<Event>)
    ensures (x + y) + z == x + (y + z)
  {}

  lemma {:induction false} Join(file: string, parse: string -> Parsed, a: nat, b: nat, c: nat)
    requires Boundary(file, a, b) && Boundary(file, b, c)
    ensures Boundary(file, a, c)
    ensures Expected(file, parse, a, c) == Expected(file, parse, a, b) + Expected(file, parse, b, c)
    decreases if a <= b then b - a else 0
  {
    JoinBoundary(file, a, b, c);
    if a == b {
      assert Expected(file, parse, a, b) == [];
    } else {
      var end := ReadAt(file, a).end;
      BoundaryOrder(file, b, c);
      ExpectedStep(file, parse, a, b);
      ExpectedStep(file, parse, a, c);
      Join(file, parse, end, b, c);
      ThenThen(Emitted(file, parse, a, end), Expected(file, parse, end, b), Expected(file, parse, b, c));
    }
  }

  lemma OneRecord(file: string, parse: string -> Parsed, a: nat)
    requires ReadAt(file, a).Line?
    ensures Boundary(file, a, ReadAt(file, a).end)
    ensures Expected(file, parse, a, ReadAt(file, a).end) == Emitted(file, parse, a, ReadAt(file, a).end)
  {
    var end := ReadAt(file, a).end;
    assert Boundary(file, end, end) && Expected(file, parse, end, end) == [];
  }

  predicate Ascending(es: seq<Event>) { forall i, j :: 0 <= i < j < |es| ==> es[i].position < es[j].position }

  /** The events between two positions lie between them, each later than the one before. */
  lemma {:induction false} InOrder(file: string, parse: string -> Parsed, from: nat, to: nat)
    requires Boundary(file, from, to)
    ensures forall e :: e in Expected(file, parse, from, to) ==> from <= e.position < to
    ensures Ascending(Expected(file, parse, from, to))
    decreases if from <= to then to - from else 0
  {
    if from != to {
      var end := ReadAt(file, from).end;
      BoundaryOrder(file, end, to);
      InOrder(file, parse, end, to);
    }
  }

  lemma {:induction false} NewlineAppend(file: string, more: string, pos: nat)
    requires Newline(file, pos).Some?
    ensures Newline(file + more, pos) == Newline(file, pos)
    decreases |file| - pos
  {
    if file[pos] != '\n' { NewlineAppend(file, more, pos + 1); }
  }

  /** Appending to the file changes no complete record. */
  lemma {:induction false} Append(file: string, more: string, parse: string -> Parsed, from: nat, to: nat)
    requires Boundary(file, from, to)
    ensures Boundary(file + more, from, to)
    ensures Expected(file + more, parse, from, to) == Expected(file, parse, from, to)
    decreases if from <= to then to - from else 0
  {
    if from != to {
      var end := ReadAt(file, from).end;
      NewlineAppend(file, more, from);
      assert (file + more)[from..end] == file[from..end];
      Append(file, more, parse, end, to);
    }
  }

  // ---- the invariant ------------------------------------------------------------------

  /** From `base` on: the saved offset, then the collector's, then `high`, each some records further;
      exactly the events up to `high` have been accepted. */
  predicate Tracks(d: Disk, parse: string -> Parsed, base: nat, offset: nat, high: nat) {
    && Boundary(d.file, base, d.saved) && Boundary(d.file, d.saved, offset) && Boundary(d.file, offset, high)
    && high <= |d.file|
    && Boundary(d.file, base, high) && d.accepted == Expected(d.file, parse, base, high)
  }

  /** The stored events are those of a prefix of the records, which reaches the saved offset. */
  ghost predicate ExactlyOnce(d: Disk, parse: string -> Parsed, base: nat) {
    exists high: nat :: Tracks(d, parse, base, d.saved, high)
  }

  ghost predicate AllExact(trace: seq<Disk>, parse: string -> Parsed, base: nat) {
    forall k :: 0 <= k < |trace| ==> ExactlyOnce(trace[k], parse, base)
  }

  lemma TracksIsExact(d: Disk, parse: string -> Parsed, base: nat, offset: nat, high: nat)
    requires Tracks(d, parse, base, offset, high)
    ensures ExactlyOnce(d, parse, base)
    ensures Tracks(d.(saved := offset), parse, base, offset, high)
  {
    Join(d.file, parse, d.saved, offset, high);
    assert Boundary(d.file, d.saved, d.saved);
    Join(d.file, parse, base, d.saved, offset);
    assert Boundary(d.file, offset, offset);
    assert Tracks(d, parse, base, d.saved, high);
  }

  lemma GrownTracks(d: Disk, more: string, parse: string -> Parsed, base: nat, offset: nat, high: nat)
    requires Tracks(d, parse, base, offset, high)
    ensures Tracks(d.(file := d.file + more), parse, base, offset, high)
  {
    Append(d.file, more, parse, base, d.saved);
    Append(d.file, more, parse, d.saved, offset);
    Append(d.file, more, parse, offset, high);
    Append(d.file, more, parse, base, high);
  }

  /** Handing over the record at `offset`: new at the frontier, already stored behind it. */
  lemma SubmitTracks(d: Disk, parse: string -> Parsed, base: nat, offset: nat, high: nat) returns (high': nat)
    requires Tracks(d, parse, base, offset, high) && ReadAt(d.file, offset).Line?
    ensures var end := ReadAt(d.file, offset).end;
            var line := d.file[offset..end];
            var d' := if parse(line) == Auth then Submit(d, Event(offset, line)) else d;
            && Tracks(d', parse, base, offset, high') && Tracks(d', parse, base, end, high')
            && (offset < high ==> d' == d)
  {
    var end := ReadAt(d.file, offset).end;
    OneRecord(d.file, parse, offset);
    BoundaryOrder(d.file, offset, high);
    Join(d.file, parse, d.saved, offset, end);
    Join(d.file, parse, base, d.saved, offset);
    if offset < high {
      high' := high;
      Join(d.file, parse, base, offset, high);
    } else {
      high' := end;
      Join(d.file, parse, base, high, end);
      InOrder(d.file, parse, base, high);
      assert Boundary(d.file, end, end);
      if parse(d.file[offset..end]) == Auth {
        forall i | 0 <= i < |d.accepted| ensures d.accepted[i] != Event(offset, d.file[offset..end]) { }
      }
    }
  }

  lemma ReadTracks(d: Disk, offset: nat, parse: string -> Parsed, m: Meets, base: nat, high: nat) returns (high': nat)
    requires Tracks(d, parse, base, offset, high)
    ensures var p := ReadOne(d, offset, parse, m);
            AllExact(p.trace, parse, base) && Tracks(After(d, p.trace), parse, base, p.offset, high')
  {
    var d1 := d.(file := d.file + m.grown);
    GrownTracks(d, m.grown, parse, base, offset, high);
    TracksIsExact(d1, parse, base, offset, high);
    high' := high;
    if ReadAt(d1.file, offset).Line? {
      var end := ReadAt(d1.file, offset).end;
      var line := d1.file[offset..end];
      if parse(line) != Auth {
        high' := SubmitTracks(d1, parse, base, offset, high);
      } else if !(m.stopped || (m.full && Event(offset, line) !in d1.accepted)) {
        high' := HandedTracks(d1, offset, parse, base, high);
      }
    }
  }

  /** Storing the record's event, saving the offset before it, and moving on. */
  lemma HandedTracks(d: Disk, offset: nat, parse: string -> Parsed, base: nat, high: nat) returns (high': nat)
    requires Tracks(d, parse, base, offset, high) && ReadAt(d.file, offset).Line?
    requires parse(d.file[offset..ReadAt(d.file, offset).end]) == Auth
    ensures var end := ReadAt(d.file, offset).end;
            var stored := Submit(d, Event(offset, d.file[offset..end]));
            var saved := stored.(saved := offset);
            ExactlyOnce(stored, parse, base) && ExactlyOnce(saved, parse, base) && Tracks(saved, parse, base, end, high')
  {
    var end := ReadAt(d.file, offset).end;
    high' := SubmitTracks(d, parse, base, offset, high);
    var stored := Submit(d, Event(offset, d.file[offset..end]));
    TracksIsExact(stored, parse, base, offset, high');
    var saved := stored.(saved := offset);
    OneRecord(saved.file, parse, offset);
    TracksIsExact(saved, parse, base, end, high');
  }

  lemma {:induction false} PollTracks(d: Disk, parse: string -> Parsed, meets: nat -> Meets, k: nat, base: nat, high: nat)
    returns (high': nat)
    requires Tracks(d, parse, base, d.saved, high) && d.saved <= |d.file|
    ensures var p := PollTo(d, parse, meets, k);
            AllExact(p.trace, parse, base) && Tracks(After(d, p.trace), parse, base, p.offset, high')
  {
    high' := high;
    if k > 0 {
      high' := PollTracks(d, parse, meets, k - 1, base, high);
      var p := PollTo(d, parse, meets, k - 1);
      if p.open {
        high' := ReadTracks(After(d, p.trace), p.offset, parse, meets(k - 1), base, high');
      }
    }
  }

  lemma PollIsExact(d: Disk, parse: string -> Parsed, meets: nat -> Meets, base: nat)
    requires ExactlyOnce(d, parse, base)
    ensures AllExact(PollTrace(d, parse, meets), parse, base)
  {
    var high: nat :| Tracks(d, parse, base, d.saved, high);
    BoundaryOrder(d.file, d.saved, high);
    var high' := PollTracks(d, parse, meets, MAX_READS, base, high);
    var p := PollTo(d, parse, meets, MAX_READS);
    TracksIsExact(After(d, p.trace), parse, base, p.offset, high');
  }

  // ---- runs ----------------------------------------------------------------------------

  datatype Op = Appending(more: string) | Polling(meets: nat -> Meets)

  /** One operation that a crash may stop after `cut` commits; the next poll starts where the saved
      offset says. */
  datatype Step = Step(op: Op, cut: nat)

  function OpTrace(d: Disk, parse: string -> Parsed, op: Op): seq<Disk> {
    match op
    case Appending(more) => [d.(file := d.file + more)]
    case Polling(meets) => PollTrace(d, parse, meets)
  }

  function Run(d: Disk, parse: string -> Parsed, steps: seq<Step>): Disk
    decreases |steps|
  {
    if steps == [] then d else Run(Cut(d, OpTrace(d, parse, steps[0].op), steps[0].cut), parse, steps[1..])
  }

  lemma {:induction false} RunIsExact(d: Disk, parse: string -> Parsed, steps: seq<Step>, base: nat)
    requires ExactlyOnce(d, parse, base)
    ensures ExactlyOnce(Run(d, parse, steps), parse, base)
    decreases |steps|
  {
    if steps != [] {
      match steps[0].op {
        case Appending(more) =>
          var high: nat :| Tracks(d, parse, base, d.saved, high);
          GrownTracks(d, more, parse, base, d.saved, high);
          TracksIsExact(d.(file := d.file + more), parse, base, d.saved, high);
        case Polling(meets) => PollIsExact(d, parse, meets, base);
      }
      RunIsExact(Cut(d, OpTrace(d, parse, steps[0].op), steps[0].cut), parse, steps[1..], base);
    }
  }

  /** The stored events are those of the records between `base` and `high`, past the saved offset. */
  predicate IsPrefix(d: Disk, parse: string -> Parsed, base: nat, high: nat) {
    && Boundary(d.file, base, d.saved) && d.saved <= high
    && Boundary(d.file, base, high) && d.accepted == Expected(d.file, parse, base, high)
  }

  /** Once the first offset has been saved, the start or the end of the file: over every run the stored events are exactly those of the
      records from there up to some boundary at or past the saved offset, in file order, none twice. */
  lemma ExactlyOnceTailing(file: string, readExisting: bool, parse: string -> Parsed, steps: seq<Step>, base: nat, d: Disk)
    requires base == (if readExisting then 0 else |file|) && d == Run(Disk(file, base, []), parse, steps)
    ensures exists high: nat :: IsPrefix(d, parse, base, high)
    ensures Ascending(d.accepted)
  {
    var d0 := Disk(file, base, []);
    assert Tracks(d0, parse, base, base, base);
    RunIsExact(d0, parse, steps, base);
    var high: nat :| Tracks(d, parse, base, d.saved, high);
    BoundaryOrder(d.file, d.saved, high);
    InOrder(d.file, parse, base, high);
    assert IsPrefix(d, parse, base, high);
  }

  // ---- what an undisturbed poll gets done -------------------------------------------------

  /** A record is the bytes up to and with the next newline, 32768 of them at most; so many bytes without one are
      too long, and fewer are still being written. */
  lemma ReadMeans(file: string, pos: nat)
    requires pos <= |file|
    ensures match ReadAt(file, pos)
            case Line(end) =>
              pos < end <= |file| && end - pos <= 32768 && file[end - 1] == '\n' && forall i :: pos <= i < end - 1 ==> file[i] != '\n'
            case Oversized => |file| - pos > 32768 && forall i :: pos <= i < pos + 32768 ==> file[i] != '\n'
            case Incomplete => |file| - pos <= 32768 && forall i :: pos <= i < |file| ==> file[i] != '\n'
  {
    NewlineIsFirst(file, pos);
  }

  lemma {:induction false} NewlineIsFirst(file: string, pos: nat)
    requires pos <= |file|
    ensures match Newline(file, pos)
            case Some(n) => forall i :: pos <= i < n ==> file[i] != '\n'
            case None => forall i :: pos <= i < |file| ==> file[i] != '\n'
    decreases |file| - pos
  {
    if pos < |file| && file[pos] != '\n' { NewlineIsFirst(file, pos + 1); }
  }

  /** How many records lie between two positions. */
  function Records(file: string, from: nat, to: nat): nat
    requires Boundary(file, from, to)
    decreases if from <= to then to - from else 0
  {
    if from == to then 0 else 1 + Records(file, ReadAt(file, from).end, to)
  }

  lemma {:induction false} OneMoreRecord(file: string, from: nat, to: nat)
    requires Boundary(file, from, to) && ReadAt(file, to).Line?
    ensures Boundary(file, from, ReadAt(file, to).end)
    ensures Records(file, from, ReadAt(file, to).end) == Records(file, from, to) + 1
    decreases if from <= to then to - from else 0
  {
    var end := ReadAt(file, to).end;
    if from == to {
      assert Boundary(file, end, end) && Records(file, end, end) == 0;
    } else {
      BoundaryOrder(file, from, to);
      OneMoreRecord(file, ReadAt(file, from).end, to);
    }
  }

  /** How a read ends, whatever it meets: it goes on past a record that it can read, unless that is a login attempt
      not stored yet that is not taken in. */
  lemma ReadOutcome(d: Disk, offset: nat, parse: string -> Parsed, m: Meets)
    ensures var p, file := ReadOne(d, offset, parse, m), d.file + m.grown;
            var d' := After(d, p.trace);
            var read := ReadAt(file, offset);
            && d'.file == file
            && (p.open <==> read.Line? && (parse(file[offset..read.end]) == Auth ==>
                              !m.stopped && (!m.full || Event(offset, file[offset..read.end]) in d.accepted)))
            && p.offset == (if p.open then read.end else offset)
            && (forall e :: e in d'.accepted <==> e in d.accepted || (p.open && e in Emitted(file, parse, offset, p.offset)))
  {}

  /** The first `k` reads from `from`: as many records, unless one cannot be read. */
  ghost predicate Reached(d: Disk, parse: string -> Parsed, from: nat, p: Progress, k: nat) {
    var d' := After(d, p.trace);
    && d'.file == d.file && Boundary(d.file, from, p.offset)
    && (forall e :: e in d'.accepted ==> e in d.accepted || e in Expected(d.file, parse, from, p.offset))
    && (forall e :: e in d.accepted || e in Expected(d.file, parse, from, p.offset) ==> e in d'.accepted)
    && if p.open then Records(d.file, from, p.offset) == k
       else Records(d.file, from, p.offset) <= k && !ReadAt(d.file, p.offset).Line?
  }

  lemma NextReached(d: Disk, parse: string -> Parsed, from: nat, before: Progress, k: nat)
    requires Reached(d, parse, from, before, k) && before.open
    ensures var next := ReadOne(After(d, before.trace), before.offset, parse, Meets("", false, false));
            Reached(d, parse, from, Progress(before.trace + next.trace, next.offset, next.open), k + 1)
  {
    var mid := After(d, before.trace);
    var next := ReadOne(mid, before.offset, parse, Meets("", false, false));
    ReadOutcome(mid, before.offset, parse, Meets("", false, false));
    assert d.file + "" == d.file;
    assert After(d, before.trace + next.trace) == After(mid, next.trace);
    if next.open {
      OneMoreRecord(d.file, from, before.offset);
      OneRecord(d.file, parse, before.offset);
      Join(d.file, parse, from, before.offset, next.offset);
    }
  }

  lemma {:induction false} CalmPoll(d: Disk, parse: string -> Parsed, meets: nat -> Meets, from: nat, k: nat)
    requires from == (if d.saved > |d.file| then 0 else d.saved) && forall i: nat :: i < k ==> meets(i) == Meets("", false, false)
    ensures Reached(d, parse, from, PollTo(d, parse, meets, k), k)
  {
    if k > 0 {
      CalmPoll(d, parse, meets, from, k - 1);
      var before := PollTo(d, parse, meets, k - 1);
      if before.open { NextReached(d, parse, from, before, k - 1); }
    } else {
      assert Boundary(d.file, from, from) && Expected(d.file, parse, from, from) == [];
    }
  }

  /** A file shorter than the saved offset is read from its start again. */
  lemma ShorterFile(d: Disk, parse: string -> Parsed, meets: nat -> Meets)
    requires d.saved > |d.file| && forall i: nat :: i < 500 ==> meets(i) == Meets("", false, false)
    ensures var done := After(d, PollTrace(d, parse, meets));
            && done.file == d.file && Boundary(d.file, 0, done.saved)
            && (forall e :: e in done.accepted <==> e in d.accepted || e in Expected(d.file, parse, 0, done.saved))
            && Records(d.file, 0, done.saved) <= 500
            && (Records(d.file, 0, done.saved) == 500 || !ReadAt(d.file, done.saved).Line?)
  {
    CalmPoll(d, parse, meets, 0, 500);
  }

  /**
   * After any run, a poll that nothing disturbs stores every event of the records up to the offset it
   * saves, and no other; and it saves the offset 500 records further, or less far in front of a record that it
   * cannot read.
   */
  lemma PollDrains(d: Disk, parse: string -> Parsed, meets: nat -> Meets, base: nat)
    requires ExactlyOnce(d, parse, base) && forall i: nat :: i < 500 ==> meets(i) == Meets("", false, false)
    ensures var done := After(d, PollTrace(d, parse, meets));
            && done.file == d.file && Boundary(d.file, d.saved, done.saved) && Boundary(d.file, base, done.saved)
            && (forall e :: e in done.accepted <==> e in d.accepted || e in Expected(d.file, parse, base, done.saved))
            && Records(d.file, d.saved, done.saved) <= 500
            && (Records(d.file, d.saved, done.saved) == 500 || !ReadAt(d.file, done.saved).Line?)
  {
    var high: nat :| Tracks(d, parse, base, d.saved, high);
    BoundaryOrder(d.file, d.saved, high);
    CalmPoll(d, parse, meets, d.saved, 500);
    var done := After(d, PollTrace(d, parse, meets));
    Join(d.file, parse, base, d.saved, done.saved);
    Join(d.file, parse, base, d.saved, high);
  }
}
