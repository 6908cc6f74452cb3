/** Verdicts over whole runs of the worker, with crashes between any two of its commits. */
module PipelineRuns {
  import opened Wrappers
  import opened Pipeline

  /** What else happens to the tables: arrivals, a restart, and retention. */
  datatype Op =
    | Arrive(event: EventId)
    | Process(at: nat, trial: Trial)
    | Restart
    | Forget(gone: set<EventId>)
    | ForgetAudit(stale: set<EventId>)

  function Arrived(d: Disk, e: EventId): Disk {
    if exists r :: r in d.rows && r.event == e then d else d.(rows := d.rows + [Row(e, Pending, None)])
  }

  function Restarted(rows: seq<Row>): (r: seq<Row>)
    ensures |r| == |rows|
    ensures forall i :: 0 <= i < |rows| ==> r[i] == if rows[i].state == Processing then rows[i].(state := Pending) else rows[i]
  {
    seq(|rows|, i requires 0 <= i < |rows| => if rows[i].state == Processing then rows[i].(state := Pending) else rows[i])
  }

  function KeepRows(rows: seq<Row>, gone: set<EventId>): seq<Row> {
    if rows == [] then []
    else
      var r := rows[|rows| - 1];
      KeepRows(rows[..|rows| - 1], gone) + if r.event in gone && r.state in {Done, Failed} then [] else [r]
  }

  function KeepAudit(audit: seq<Entry>, stale: set<EventId>): seq<Entry> {
    if audit == [] then []
    else
      var a := audit[|audit| - 1];
      KeepAudit(audit[..|audit| - 1], stale) + if a.event in stale then [] else [a]
  }

  function OpTrace(d: Disk, op: Op): seq<Disk> {
    match op
    case Arrive(e) => [Arrived(d, e)]
    case Process(at, t) => ProcessTrace(d, at, t)
    case Restart => [d.(rows := Restarted(d.rows))]
    case Forget(gone) => [d.(rows := KeepRows(d.rows, gone))]
    case ForgetAudit(stale) => [d.(audit := KeepAudit(d.audit, stale))]
  }

  /** An operation, and how many of its commits happen before the process dies. */
  datatype Step = Step(op: Op, cut: nat)

  function Run(d: Disk, steps: seq<Step>): Disk
    decreases |steps|
  {
    if steps == [] then d
    else var before := Run(d, steps[..|steps| - 1]); Cut(before, OpTrace(before, steps[|steps| - 1].op), steps[|steps| - 1].cut)
  }

  function Empty(): Disk { Disk([], [], []) }

  // ---- the invariant ---------------------------------------------------------------------

  predicate OneRowEach(rows: seq<Row>) { forall i, j :: 0 <= i < j < |rows| ==> rows[i].event != rows[j].event }

  predicate OneVerdictEach(audit: seq<Entry>) { forall i, j :: 0 <= i < j < |audit| ==> audit[i].event != audit[j].event }

  /** A finished row says what the audit says about its event. */
  predicate Agrees(d: Disk) {
    forall r, a :: r in d.rows && a in d.audit && r.state == Done && r.event == a.event ==> r.verdict == Some(a.verdict)
  }

  /** Every audited verdict was counted in the signature history first. */
  predicate Counted(d: Disk) { forall a :: a in d.audit ==> Note(a.event, a.verdict.decision) in d.history }

  predicate Sound(d: Disk) { OneRowEach(d.rows) && OneVerdictEach(d.audit) && Agrees(d) && Counted(d) }

  predicate AllSound(trace: seq<Disk>) { forall i :: 0 <= i < |trace| ==> Sound(trace[i]) }

  // ---- one commit --------------------------------------------------------------------------

  lemma {:induction false} KeptRows(rows: seq<Row>, gone: set<EventId>)
    ensures forall r :: r in KeepRows(rows, gone) ==> r in rows
    ensures OneRowEach(rows) ==> OneRowEach(KeepRows(rows, gone))
  {
    if rows != [] {
      var rest, last := rows[..|rows| - 1], rows[|rows| - 1];
      KeptRows(rest, gone);
      assert forall r :: r in rest ==> r in rows;
      if OneRowEach(rows) { assert forall r :: r in rest ==> r.event != last.event; }
    }
  }

  lemma {:induction false} KeptAudit(audit: seq<Entry>, stale: set<EventId>)
    ensures forall a :: a in KeepAudit(audit, stale) ==> a in audit
    ensures OneVerdictEach(audit) ==> OneVerdictEach(KeepAudit(audit, stale))
  {
    if audit != [] {
      var rest, last := audit[..|audit| - 1], audit[|audit| - 1];
      KeptAudit(rest, stale);
      assert forall a :: a in rest ==> a in audit;
      if OneVerdictEach(audit) { assert forall a :: a in rest ==> a.event != last.event; }
    }
  }

  /** A row that is not being finished may change state. */
  lemma MovedIsSound(d: Disk, at: nat, state: State)
    requires Sound(d) && at < |d.rows| && state != Done
    ensures Sound(d.(rows := d.rows[at := d.rows[at].(state := state)]))
  {
    var rows := d.rows[at := d.rows[at].(state := state)];
    forall r | r in rows && r.state == Done ensures r in d.rows {
      var i :| 0 <= i < |rows| && rows[i] == r;
      assert d.rows[i] == r;
    }
  }

  lemma FinishedIsSound(d: Disk, at: nat, v: Verdict)
    requires Sound(d) && at < |d.rows| && Entry(d.rows[at].event, v) in d.audit
    ensures Sound(Finished(d, at, v))
  {
    var rows := Finished(d, at, v).rows;
    forall r, a | r in rows && a in d.audit && r.state == Done && r.event == a.event ensures r.verdict == Some(a.verdict) {
      var i :| 0 <= i < |rows| && rows[i] == r;
      if i == at {
        var j, k :| 0 <= j < |d.audit| && 0 <= k < |d.audit| && d.audit[j] == Entry(r.event, v) && d.audit[k] == a;
        assert j == k;
      } else {
        assert d.rows[i] == r;
      }
    }
  }

  lemma OnlyRow(rows: seq<Row>, at: nat, r: Row)
    requires OneRowEach(rows) && at < |rows| && r in rows && r.event == rows[at].event
    ensures r == rows[at]
  {
    var i :| 0 <= i < |rows| && rows[i] == r;
    assert i == at;
  }

  lemma AuditedIsSound(d: Disk, at: nat, v: Verdict)
    requires Sound(d) && at < |d.rows| && d.rows[at].state != Done && VerdictFor(d.audit, d.rows[at].event).None?
    ensures Sound(Noted(d, d.rows[at].event, v))
    ensures Sound(Audited(Noted(d, d.rows[at].event, v), d.rows[at].event, v))
  {
    var e := d.rows[at].event;
    var done := Audited(Noted(d, e, v), e, v);
    forall r | r in d.rows && r.event == e ensures r.state != Done { OnlyRow(d.rows, at, r); }
    assert forall a :: a in done.audit ==> a in d.audit || a == Entry(e, v);
  }

  // ---- one operation -------------------------------------------------------------------------

  lemma WorkIsSound(d: Disk, at: nat, t: Trial)
    requires Sound(d) && at < |d.rows| && d.rows[at].state == Processing
    ensures AllSound(WorkTrace(d, at, t))
  {
    var e := d.rows[at].event;
    var existing := VerdictFor(d.audit, e);
    MovedIsSound(d, at, Failed);
    if existing.Some? { FinishedIsSound(d, at, existing.value); }
    else if t.answer.Some? {
      var v := t.answer.value;
      var noted := Noted(d, e, v);
      var audited := Audited(noted, e, v);
      AuditedIsSound(d, at, v);
      MovedIsSound(noted, at, Failed);
      MovedIsSound(audited, at, Failed);
      assert audited.audit[|d.audit|] == Entry(e, v);
      FinishedIsSound(audited, at, v);
    }
  }

  lemma OpIsSound(d: Disk, op: Op)
    requires Sound(d)
    ensures AllSound(OpTrace(d, op))
  {
    match op
    case Arrive(e) =>
    case Process(at, t) =>
      if Claimable(d, at) {
        MovedIsSound(d, at, Processing);
        WorkIsSound(Claimed(d, at), at, t);
      }
    case Restart =>
      var rows := Restarted(d.rows);
      forall r | r in rows && r.state == Done ensures r in d.rows {
        var i :| 0 <= i < |rows| && rows[i] == r;
        assert d.rows[i] == r;
      }
    case Forget(gone) => KeptRows(d.rows, gone);
    case ForgetAudit(stale) => KeptAudit(d.audit, stale);
  }

  // ---- whole runs --------------------------------------------------------------------------------

  /**
   * Over every run with crashes anywhere, retention and differing model answers: the audit holds
   * at most one verdict of an event, and a finished row agrees with it.
   */
  lemma {:induction false} OneVerdictPerEvent(steps: seq<Step>)
    ensures Sound(Run(Empty(), steps))
    decreases |steps|
  {
    if steps != [] {
      OneVerdictPerEvent(steps[..|steps| - 1]);
      OpIsSound(Run(Empty(), steps[..|steps| - 1]), steps[|steps| - 1].op);
    }
  }

  predicate KeepsAudit(steps: seq<Step>) { forall i :: 0 <= i < |steps| ==> !steps[i].op.ForgetAudit? }

  /** What audited events have to say stays said, and every finished row has its audit entry. */
  predicate Backed(d: Disk) { forall r :: r in d.rows && r.state == Done ==> r.verdict.Some? && Entry(r.event, r.verdict.value) in d.audit }

  predicate Extends(d: Disk, next: Disk) { d.audit <= next.audit && d.history <= next.history }

  lemma WorkIsBacked(d: Disk, at: nat, t: Trial, i: nat)
    requires Backed(d) && at < |d.rows| && i < |WorkTrace(d, at, t)|
    ensures Backed(WorkTrace(d, at, t)[i]) && Extends(d, WorkTrace(d, at, t)[i])
  {
    var next := WorkTrace(d, at, t)[i];
    forall r | r in next.rows && r.state == Done ensures r.verdict.Some? && Entry(r.event, r.verdict.value) in next.audit {
      var k :| 0 <= k < |next.rows| && next.rows[k] == r;
      if k != at || next.rows[at] == d.rows[at] { assert r == d.rows[k]; }
    }
  }

  lemma OpIsBacked(d: Disk, op: Op, i: nat)
    requires Backed(d) && i < |OpTrace(d, op)| && !op.ForgetAudit?
    ensures Backed(OpTrace(d, op)[i]) && Extends(d, OpTrace(d, op)[i])
  {
    var next := OpTrace(d, op)[i];
    match op
    case Arrive(e) =>
    case Process(at, t) =>
      var claimed := Claimed(d, at);
      forall r | r in claimed.rows && r.state == Done ensures r in d.rows {
        var k :| 0 <= k < |d.rows| && claimed.rows[k] == r;
        assert r == d.rows[k];
      }
      if i > 0 { WorkIsBacked(claimed, at, t, i - 1); }
    case Restart =>
      forall r | r in next.rows && r.state == Done ensures r in d.rows {
        var k :| 0 <= k < |d.rows| && next.rows[k] == r;
        assert r == d.rows[k];
      }
    case Forget(gone) => KeptRows(d.rows, gone);
  }

  lemma {:induction false} RunIsBacked(d: Disk, steps: seq<Step>)
    requires Backed(d) && KeepsAudit(steps)
    ensures Backed(Run(d, steps)) && Extends(d, Run(d, steps))
    decreases |steps|
  {
    if steps != [] {
      var before, s := Run(d, steps[..|steps| - 1]), steps[|steps| - 1];
      RunIsBacked(d, steps[..|steps| - 1]);
      var trace := OpTrace(before, s.op);
      if s.cut > 0 && |trace| > 0 { OpIsBacked(before, s.op, if s.cut < |trace| then s.cut - 1 else |trace| - 1); }
    }
  }

  /** While the audit is kept, a verdict once audited is what every later run finds. */
  lemma AuditedVerdictIsFinal(first: seq<Step>, later: seq<Step>, e: EventId)
    requires KeepsAudit(later) && VerdictFor(Run(Empty(), first).audit, e).Some? && KeepsAudit(first)
    ensures VerdictFor(Run(Run(Empty(), first), later).audit, e) == VerdictFor(Run(Empty(), first).audit, e)
    ensures forall r :: r in Run(Run(Empty(), first), later).rows && r.state == Done && r.event == e ==>
              r.verdict == VerdictFor(Run(Empty(), first).audit, e)
  {
    var d := Run(Empty(), first);
    RunIsBacked(Empty(), first);
    RunIsBacked(d, later);
    RunTwice(Empty(), first, later);
    OneVerdictPerEvent(first + later);
    var done := Run(d, later);
    var v := VerdictFor(d.audit, e).value;
    assert Entry(e, v) in done.audit;
    var w := VerdictFor(done.audit, e).value;
    var i, j :| 0 <= i < |done.audit| && 0 <= j < |done.audit| && done.audit[i] == Entry(e, v) && done.audit[j] == Entry(e, w);
    assert i == j;
  }

  lemma {:induction false} RunTwice(d: Disk, first: seq<Step>, later: seq<Step>)
    ensures Run(d, first + later) == Run(Run(d, first), later)
    decreases |later|
  {
    if later == [] { assert first + later == first; }
    else {
      assert (first + later)[..|first + later| - 1] == first + later[..|later| - 1];
      RunTwice(d, first, later[..|later| - 1]);
    }
  }

  /** A row whose event is audited is finished with that verdict whatever the model would say now. */
  lemma ModelIsNotAskedTwice(d: Disk, at: nat, t: Trial, other: Option<Verdict>)
    requires Claimable(d, at) && VerdictFor(d.audit, d.rows[at].event).Some?
    ensures ProcessTrace(d, at, t) == ProcessTrace(d, at, t.(answer := other))
    ensures var done := After(d, ProcessTrace(d, at, t));
            && done.audit == d.audit && done.history == d.history
            && (done.rows[at].state == Done <==> t.loads && t.plans)
            && (done.rows[at].state == Done ==> done.rows[at].verdict == VerdictFor(d.audit, d.rows[at].event))
  {}

  // ---- what a crash or a failure does cost ----------------------------------------------------------

  function Notes(history: seq<Note>, e: EventId): nat {
    if history == [] then 0 else Notes(history[..|history| - 1], e) + if history[|history| - 1].event == e then 1 else 0
  }

  function Verdicts(audit: seq<Entry>, e: EventId): nat {
    if audit == [] then 0 else Verdicts(audit[..|audit| - 1], e) + if audit[|audit| - 1].event == e then 1 else 0
  }

  /**
   * An attempt that notes a verdict and does not audit it: it dies right behind the note, or gets past
   * the note and the audit file or the audit table refuses the verdict.
   */
  predicate Slips(d: Disk, at: nat, t: Trial, cut: nat) {
    && Claimable(d, at) && VerdictFor(d.audit, d.rows[at].event).None?
    && t.loads && t.answer.Some? && cut >= 2 && (cut == 2 || !t.logs || !t.audits)
  }

  predicate StepSlips(d: Disk, s: Step, e: EventId) {
    s.op.Process? && Slips(d, s.op.at, s.op.trial, s.cut) && d.rows[s.op.at].event == e
  }

  /** How many attempts of a run on `e` slip. */
  function SlipCount(d: Disk, steps: seq<Step>, e: EventId): nat
    decreases |steps|
  {
    if steps == [] then 0
    else
      var rest, s := steps[..|steps| - 1], steps[|steps| - 1];
      SlipCount(d, rest, e) + if StepSlips(Run(d, rest), s, e) then 1 else 0
  }

  /** The notes of `e` exceed its audited verdicts by `gap`. */
  predicate Ahead(d: Disk, e: EventId, gap: int) { Notes(d.history, e) == Verdicts(d.audit, e) + gap }

  lemma NoteOne(history: seq<Note>, n: Note, e: EventId)
    ensures Notes(history + [n], e) == Notes(history, e) + if n.event == e then 1 else 0
  {
    assert (history + [n])[..|history|] == history;
  }

  lemma AuditOne(audit: seq<Entry>, a: Entry, e: EventId)
    ensures Verdicts(audit + [a], e) == Verdicts(audit, e) + if a.event == e then 1 else 0
  {
    assert (audit + [a])[..|audit|] == audit;
  }

  /** The attempt gets as far as the history, with an event that is not audited yet. */
  predicate WritesNote(d: Disk, at: nat, t: Trial, cut: nat) {
    Claimable(d, at) && VerdictFor(d.audit, d.rows[at].event).None? && t.loads && t.answer.Some? && cut >= 2
  }

  /** It gets as far as the audit. */
  predicate WritesVerdict(d: Disk, at: nat, t: Trial, cut: nat) { WritesNote(d, at, t, cut) && cut >= 3 && t.logs && t.audits }

  lemma AttemptLeaves(d: Disk, at: nat, t: Trial, cut: nat)
    ensures var next := Cut(d, ProcessTrace(d, at, t), cut);
            && (!WritesNote(d, at, t, cut) ==> next.history == d.history)
            && (WritesNote(d, at, t, cut) ==> next.history == d.history + [Note(d.rows[at].event, t.answer.value.decision)])
            && (!WritesVerdict(d, at, t, cut) ==> next.audit == d.audit)
            && (WritesVerdict(d, at, t, cut) ==> next.audit == d.audit + [Entry(d.rows[at].event, t.answer.value)])
  {}

  /**
   * One attempt, cut anywhere: the notes of an event gain one on its audited verdicts if and only if
   * the attempt is on that event and slips, and otherwise the balance does not move.
   */
  lemma AttemptBalance(d: Disk, at: nat, t: Trial, cut: nat, e: EventId, gap: int)
    requires Ahead(d, e, gap)
    ensures Ahead(Cut(d, ProcessTrace(d, at, t), cut), e, gap + if Slips(d, at, t, cut) && d.rows[at].event == e then 1 else 0)
  {
    AttemptLeaves(d, at, t, cut);
    if WritesNote(d, at, t, cut) {
      NoteOne(d.history, Note(d.rows[at].event, t.answer.value.decision), e);
      AuditOne(d.audit, Entry(d.rows[at].event, t.answer.value), e);
    }
  }

  lemma StepBalance(d: Disk, s: Step, e: EventId, gap: int)
    requires Ahead(d, e, gap) && !s.op.ForgetAudit?
    ensures Ahead(Cut(d, OpTrace(d, s.op), s.cut), e, gap + if StepSlips(d, s, e) then 1 else 0)
  {
    if s.op.Process? { AttemptBalance(d, s.op.at, s.op.trial, s.cut, e, gap); }
  }

  lemma {:induction false} RunBalance(d: Disk, steps: seq<Step>, e: EventId, gap: int)
    requires Ahead(d, e, gap) && KeepsAudit(steps)
    ensures Ahead(Run(d, steps), e, gap + SlipCount(d, steps, e))
    decreases |steps|
  {
    if steps != [] {
      var rest := steps[..|steps| - 1];
      RunBalance(d, rest, e, gap);
      StepBalance(Run(d, rest), steps[|steps| - 1], e, gap + SlipCount(d, rest, e));
    }
  }

  /**
   * Over every run that keeps its audit: the signature history counts the verdicts of an event exactly
   * as often as the audit does, plus once for each attempt on it that slipped. So the two agree if and
   * only if none did.
   */
  lemma HistoryAgreesUnlessAttemptsSlip(steps: seq<Step>, e: EventId)
    requires KeepsAudit(steps)
    ensures var d := Run(Empty(), steps);
            && Notes(d.history, e) == Verdicts(d.audit, e) + SlipCount(Empty(), steps, e)
            && Verdicts(d.audit, e) <= 1
  {
    RunBalance(Empty(), steps, e, 0);
    OneVerdictPerEvent(steps);
    AtMostOnce(Run(Empty(), steps).audit, e);
  }

  lemma {:induction false} AtMostOnce(audit: seq<Entry>, e: EventId)
    requires OneVerdictEach(audit)
    ensures Verdicts(audit, e) <= 1
    ensures (forall a :: a in audit ==> a.event != e) ==> Verdicts(audit, e) == 0
  {
    if audit != [] {
      var rest, last := audit[..|audit| - 1], audit[|audit| - 1];
      AtMostOnce(rest, e);
      assert forall a :: a in rest ==> a in audit && a.event != last.event;
    }
  }

  /**
   * The signature history has no such protection: a crash between the history commit and the audit
   * commit leaves two verdicts counted for the event, which need not even agree.
   */
  lemma HistoryCountsTwice(d: Disk, at: nat, first: Trial, second: Trial)
    requires Claimable(d, at) && VerdictFor(d.audit, d.rows[at].event).None?
    requires first.loads && first.answer.Some?
    requires second.loads && second.answer.Some? && second.logs && second.audits && second.plans
    ensures var e := d.rows[at].event;
            var crashed := Cut(d, ProcessTrace(d, at, first), 2);
            var restarted := After(crashed, OpTrace(crashed, Restart));
            var done := After(restarted, ProcessTrace(restarted, at, second));
            && done.history == d.history + [Note(e, first.answer.value.decision), Note(e, second.answer.value.decision)]
            && done.audit == d.audit + [Entry(e, second.answer.value)]
            && done.rows[at] == Row(e, Done, second.answer)
  {
    var e := d.rows[at].event;
    var crashed := Cut(d, ProcessTrace(d, at, first), 2);
    assert crashed == Noted(Claimed(d, at), e, first.answer.value);
    var restarted := After(crashed, OpTrace(crashed, Restart));
    assert restarted.rows[at] == d.rows[at] && restarted.audit == d.audit;
  }

  /** The same without a crash: the audit refuses the verdict, and the failed row leaves its note behind. */
  lemma RefusedVerdictLeavesANote(d: Disk, at: nat, t: Trial)
    requires Claimable(d, at) && VerdictFor(d.audit, d.rows[at].event).None?
    requires t.loads && t.answer.Some? && (!t.logs || !t.audits)
    ensures var e, done := d.rows[at].event, After(d, ProcessTrace(d, at, t));
            && done.history == d.history + [Note(e, t.answer.value.decision)] && done.audit == d.audit
            && done.rows[at].state == Failed
    ensures Slips(d, at, t, |ProcessTrace(d, at, t)|)
  {}

  // ---- how an attempt ends ---------------------------------------------------------------------------

  /**
   * An attempt that is not cut leaves its row finished or failed. It is finished exactly when nothing raises on the way
   * to a verdict, the audited one if there is one and else the new one, which is then audited; and no other row changes.
   */
  lemma AttemptOutcome(d: Disk, at: nat, t: Trial)
    requires at < |d.rows| && d.rows[at].state == Pending
    ensures var d', e := After(d, ProcessTrace(d, at, t)), d.rows[at].event;
            var known := VerdictFor(d.audit, e);
            var asks := t.loads && known.None? && t.answer.Some?;
            var finished := t.loads && t.plans && (known.Some? || (t.answer.Some? && t.logs && t.audits));
            && d'.rows == d.rows[at := if finished then Row(e, Done, if known.Some? then known else t.answer)
                                       else d.rows[at].(state := Failed)]
            && d'.history == (if asks then d.history + [Note(e, t.answer.value.decision)] else d.history)
            && d'.audit == if asks && t.logs && t.audits then d.audit + [Entry(e, t.answer.value)] else d.audit
  {}

  /** The newest entry of the event, when there is one. */
  lemma {:induction false} VerdictIsNewest(audit: seq<Entry>, e: EventId) returns (i: nat)
    ensures match VerdictFor(audit, e)
            case None => forall j :: 0 <= j < |audit| ==> audit[j].event != e
            case Some(v) => i < |audit| && audit[i] == Entry(e, v) && forall j :: i < j < |audit| ==> audit[j].event != e
  {
    i := 0;
    if audit != [] {
      var n := |audit| - 1;
      if audit[n].event == e { i := n; } else { i := VerdictIsNewest(audit[..n], e); }
    }
  }
}
