/** Second-level deadlines and policy-controlled response. */
module L2Workflow {
  import opened Wrappers
  import opened Containment
  import opened Protection
  import R = ResponseWorkflow
  import E = L2Evidence

  type Key = string

  type Severity = R.Severity

  // ---- policy -------------------------------------------------------------------------

  datatype Policy = Policy(automatic: bool, rules: set<E.Rule>, critical: nat, high: nat, medium: nat)

  function Window(p: Policy, s: Severity): Option<nat> {
    match s
    case Critical => Some(p.critical)
    case High => Some(p.high)
    case Medium => Some(p.medium)
    case Low => None
  }

  /** Position in the list of severities: 0 is the gravest. */
  function Rank(s: Severity): nat {
    match s case Critical => 0 case High => 1 case Medium => 2 case Low => 3
  }

  /** Severity of a row: its own score, raised by what the independent assessment found. */
  function SeverityFor(score: real, verifiedCritical: bool, repeatedLogins: bool): Severity {
    R.SeverityOf(R.Max(score, if verifiedCritical then 9.0 else if repeatedLogins then 7.0 else 0.0))
  }

  // ---- cases ------------------------------------------------------------------------------

  datatype State = Waiting | NeedsReview | Executing | Contained | Rejected | Reverted | Followed(status: Status)

  /** `base` is the creation time or that of the last rise in severity; `extensions` counts accepted
      acknowledgements. Both are history that the program leaves to its notices. */
  datatype Case = Case(key: Key, event: EventId, severity: Severity, deadline: Option<int>, state: State,
                       brief: Option<E.Brief>, action: Option<ActionId>, acknowledged: bool, failed: bool,
                       alerted: bool, base: int, extensions: nat)

  /** A row of the telemetry table as the review and as the protection read it. */
  datatype Reading = Reading(row: E.Row, evidence: Evidence)

  /** The address that a row proposes, as the row writes it. */
  function Written(x: Reading): E.Address {
    E.Field(x.row, if HasRule(x.evidence, RepeatedLoginFailures) then "src_ip" else "dst_ip")
  }

  /** What one case's deadline meets: the telemetry table, from which the row of its event is read again,
      the rows collected anew with it, and the native approval. */
  datatype Attempt = Attempt(now: int, telemetry: seq<Reading>, related: seq<E.Row>, host: E.Host, id: ActionId, native: Native)

  /** The row of an event, unless retention has dropped it. */
  function Reread(telemetry: seq<Reading>, event: EventId): (r: Option<Reading>)
    ensures r.Some? <==> exists x :: x in telemetry && x.row.id == event
    ensures r.Some? ==> r.value in telemetry && r.value.row.id == event
  {
    if telemetry == [] then None
    else if telemetry[0].row.id == event then Some(telemetry[0])
    else Reread(telemetry[1..], event)
  }

  /** The history the claims are about: each automatic block, with the configuration, the case and the
      row that it was made on. */
  datatype Block = Block(key: Key, event: EventId, deadline: int, brief: E.Brief, halted: bool,
                         policy: Policy, scope: Option<Scope>, reading: Reading, attempt: Attempt)

  /** `clock` is the last time read. */
  datatype Disk = Disk(cases: map<Key, Case>, stopped: bool, device: World, log: seq<Block>, clock: int)

  function Put(d: Disk, c: Case): Disk { d.(cases := d.cases[c.key := c]) }

  predicate Open(c: Case) { c.state in {Waiting, NeedsReview} }

  function Plus(now: int, window: Option<nat>): Option<int> {
    if window.Some? then Some(now + window.value) else None
  }

  function Min(a: int, b: int): int { if a <= b then a else b }

  // ---- steps of a pass, each one read of the clock and one saved case ---------------------

  /** The first escalation of an identity opens its case. */
  function Opened(p: Policy, key: Key, event: EventId, level: Severity, now: int): Case {
    Case(key, event, level, Plus(now, Window(p, level)), Waiting, None, None, false, false, false, now, 0)
  }

  /** A rise shortens the deadline, discards the brief and allows one more extension. */
  function Raised(p: Policy, c: Case, event: EventId, level: Severity, now: int): Case
    requires Window(p, level).Some?
  {
    var due := now + Window(p, level).value;
    c.(event := event, severity := level, acknowledged := false, brief := None, base := now,
       deadline := Some(if c.deadline.None? || c.deadline.value == 0 then due else Min(c.deadline.value, due)))
  }

  /** An escalated row of the identity; `stale` when the case already has a newer one. */
  datatype Sighting = Sighting(event: EventId, stale: bool, score: real, verifiedCritical: bool, repeatedLogins: bool)

  function Level(s: Sighting): Severity { SeverityFor(s.score, s.verifiedCritical, s.repeatedLogins) }

  function Observed(p: Policy, c: Case, s: Sighting, now: int): Case {
    if !Open(c) || s.stale then c
    else if Rank(Level(s)) < Rank(c.severity) && Window(p, Level(s)).Some? then Raised(p, c, s.event, Level(s), now)
    else c.(event := s.event)
  }

  function ObserveTrace(d: Disk, p: Policy, key: Key, s: Sighting, now: int): seq<Disk> {
    var d1 := d.(clock := now);
    if key !in d.cases then [Put(d1, Opened(p, key, s.event, Level(s), now))]
    else [d1.(cases := d1.cases[key := Observed(p, d1.cases[key], s, now)])]
  }

  /** A review result: a brief for the severity it looked at, or a failure that calls a person. */
  function ResultTrace(d: Disk, key: Key, level: Severity, brief: Option<E.Brief>, followUp: bool): seq<Disk> {
    if key !in d.cases then []
    else
      var c := d.cases[key];
      if followUp then [d.(cases := d.cases[key := if c.state == Waiting && brief.Some? then c.(brief := brief) else c])]
      else if !Open(c) || level != c.severity then []
      else if brief.None? then [d.(cases := d.cases[key := c.(failed := true, state := NeedsReview)])]
      else [d.(cases := d.cases[key := c.(brief := brief)])]
  }

  /** Everything a block needs besides a passed deadline. */
  predicate MayBlock(b: Block) {
    var a, x := b.attempt, b.reading;
    && !b.halted
    && b.policy.automatic && b.brief.receipt.rule.Some? && b.brief.receipt.rule.value in b.policy.rules
    && 0 <= a.now - x.row.timestamp <= 30 && Proposal(x.evidence, b.scope, a.now).Some?
    && b.brief.action == E.BlockIp && b.brief.confidence >= 0.95
    && b.brief.target == Some(Written(x))
    && E.Authorize(b.brief, x.row, a.related, Some(Written(x)), a.now, a.host)
  }

  function Approval(b: Block): Request {
    var a, evidence := b.attempt, b.reading.evidence;
    Request(b.event, evidence, Proposal(evidence, b.scope, a.now), "l2-policy", a.id, a.now)
  }

  function Lift(d: Disk, worlds: seq<World>, entry: Block): seq<Disk> {
    seq(|worlds|, i requires 0 <= i < |worlds| =>
      if i == 0 then d.(device := worlds[0]) else d.(device := worlds[i], log := d.log + [entry]))
  }

  function ExecuteTrace(d: Disk, b: Block): seq<Disk>
    requires b.key in d.cases
  {
    var c, q, a := d.cases[b.key], Approval(b), b.attempt;
    var started := d.(clock := a.now, cases := d.cases[b.key := c.(state := Executing)]);
    var run := Lift(started, ApproveTrace(d.device, b.scope, true, q, a.native), b);
    var last := After(started, run);
    var done := if Approved(d.device, b.scope, true, q, a.native) then c.(state := Contained, action := Some(a.id))
                else c.(state := NeedsReview);
    [started] + run + [last.(cases := last.cases[b.key := done])]
  }

  /** One case's turn at the end of a pass: follow its action, or act on its passed deadline. A brief
      whose row has been dropped makes the pass raise. */
  function DeadlineTrace(d: Disk, p: Policy, scope: Option<Scope>, key: Key, a: Attempt): seq<Disk> {
    var d1 := d.(clock := a.now);
    if key !in d.cases then []
    else
      var c := d.cases[key];
      if c.state == Contained then
        match (if c.action.Some? then Find(d.device.rows, c.action.value) else None)
        case None => []
        case Some(x) =>
          if x.event != c.event || Shown(x, a.now) in {Status.Executed, ExpiryDue} then []
          else [d1.(cases := d1.cases[key := c.(state := Followed(x.status))])]
      else if c.state != Waiting || c.deadline.None? || a.now < c.deadline.value then []
      else if c.brief.None? then if c.alerted then [] else [d1.(cases := d1.cases[key := c.(alerted := true)])]
      else
        match Reread(a.telemetry, c.event)
        case None => []
        case Some(x) =>
          var b := Block(key, c.event, c.deadline.value, c.brief.value, d.stopped, p, scope, x, a);
          if MayBlock(b) then ExecuteTrace(d, b) else [d1.(cases := d1.cases[key := c.(state := NeedsReview)])]
  }

  // ---- commands ------------------------------------------------------------------------------

  datatype Command = Revert(native: Native) | Reject(reason: string) | Acknowledge | Defer(reason: string)

  datatype Outcome = Outcome(trace: seq<Disk>, ok: bool)

  /** One bounded extension per severity; without a window it moves nothing. */
  function Extended(p: Policy, c: Case, now: int): Case {
    var w := Window(p, c.severity);
    c.(acknowledged := true, extensions := c.extensions + 1,
       deadline := if w.Some? && c.deadline.Some? then Some(Min(c.deadline.value + w.value, now + w.value)) else c.deadline)
  }

  function ControlOutcome(d: Disk, p: Policy, key: Key, cmd: Command, now: int): Outcome {
    var d1 := d.(clock := now);
    if (cmd.Reject? || cmd.Defer?) && R.Blank(cmd.reason) then Outcome([], false)
    else if key !in d.cases then Outcome([], false)
    else
      var c := d.cases[key];
      if cmd.Revert? then
        if c.action.None? then Outcome([], false)
        else
          var undo := UndoTrace(d.device, true, c.action.value, cmd.native);
          var worlds := seq(|undo|, i requires 0 <= i < |undo| => d1.(device := undo[i]));
          if Find(d.device.rows, c.action.value).Some? && RemovalConfirmed(d.device, c.action.value, cmd.native, true) then
            var last := After(d1, worlds);
            Outcome(worlds + [last.(cases := last.cases[key := c.(state := Reverted)])], true)
          else Outcome(worlds, false)
      else if !Open(c) then Outcome([], false)
      else if cmd.Reject? then Outcome([d1.(cases := d1.cases[key := c.(state := Rejected)])], true)
      else if c.acknowledged then Outcome([], false)
      else Outcome([d1.(cases := d1.cases[key := Extended(p, c, now)])], true)
  }

  /** Restart: an interrupted execution waits for a person. */
  function Interrupted(d: Disk, key: Key): seq<Disk> {
    if key in d.cases && d.cases[key].state == Executing
    then [d.(cases := d.cases[key := d.cases[key].(state := NeedsReview)])] else []
  }

  function Interruptions(order: seq<Key>): Turns<Disk> { (i: nat, d: Disk) => if i < |order| then Interrupted(d, order[i]) else [] }

  function RestartTrace(d: Disk, order: seq<Key>): seq<Disk> { UpTo(d, Interruptions(order), |order|) }

  // ---- the service object ------------------------------------------------------------------------

  class Workflow {
    const store: Database<Disk>
    const policy: Policy
    const scope: Option<Scope>

    constructor (store: Database<Disk>, policy: Policy, scope: Option<Scope>)
      ensures this.store == store && this.policy == policy && this.scope == scope
    {
      this.store, this.policy, this.scope := store, policy, scope;
    }

    method InterruptNext(order: seq<Key>, i: nat, ghost start: Disk, ghost trail: seq<Disk>)
      requires i < |order| && store.Reached(start, trail, UpTo(start, Interruptions(order), i))
      modifies store
      ensures store.Reached(start, trail, UpTo(start, Interruptions(order), i + 1))
    {
      var d := store.state;
      if order[i] in d.cases && d.cases[order[i]].state == Executing {
        store.Commit(d.(cases := d.cases[order[i] := d.cases[order[i]].(state := NeedsReview)]));
      }
      store.Turn(start, trail, Interruptions(order), i);
    }

    method Recover(order: seq<Key>)
      modifies store
      ensures store.Reached(old(store.state), old(store.trail), RestartTrace(old(store.state), order))
    {
      ghost var start, trail := store.state, store.trail;
      for i := 0 to |order|
        invariant store.Reached(start, trail, UpTo(start, Interruptions(order), i))
      {
        InterruptNext(order, i, start, trail);
      }
    }

    method Halt(stopped: bool)
      modifies store
      ensures store.Reached(old(store.state), old(store.trail), [old(store.state).(stopped := stopped)])
    {
      store.Commit(store.state.(stopped := stopped));
    }

    method Observe(key: Key, s: Sighting, now: int)
      modifies store
      ensures store.Reached(old(store.state), old(store.trail), ObserveTrace(old(store.state), policy, key, s, now))
    {
      var d := store.state.(clock := now);
      var level := SeverityFor(s.score, s.verifiedCritical, s.repeatedLogins);
      if key !in d.cases {
        store.Commit(Put(d, Opened(policy, key, s.event, level, now)));
        return;
      }
      var c := d.cases[key];
      if Open(c) && !s.stale {
        if Rank(level) < Rank(c.severity) && Window(policy, level).Some? {
          c := Raised(policy, c, s.event, level, now);
        } else {
          c := c.(event := s.event);
        }
      }
      store.Commit(d.(cases := d.cases[key := c]));
    }

    method TakeResult(key: Key, level: Severity, brief: Option<E.Brief>, followUp: bool)
      modifies store
      ensures store.Reached(old(store.state), old(store.trail), ResultTrace(old(store.state), key, level, brief, followUp))
    {
      var d := store.state;
      if key !in d.cases { return; }
      var c := d.cases[key];
      if followUp {
        if c.state == Waiting && brief.Some? { c := c.(brief := brief); }
      } else {
        if !Open(c) || level != c.severity { return; }
        c := if brief.None? then c.(failed := true, state := NeedsReview) else c.(brief := brief);
      }
      store.Commit(d.(cases := d.cases[key := c]));
    }

    /** An approval by the agent's protection; its commits are returned for the shared state. */
    method ApproveOnDevice(q: Request, native: Native) returns (run: seq<World>, ok: bool)
      ensures run == ApproveTrace(store.state.device, scope, true, q, native)
      ensures ok == Approved(store.state.device, scope, true, q, native)
    {
      var db := new Database(store.state.device);
      var protection := new Protection(db, scope, true);
      var r := protection.Approve(q, native);
      return db.trail, r.Ok?;
    }

    method UndoOnDevice(id: ActionId, native: Native) returns (run: seq<World>, ok: bool)
      ensures run == UndoTrace(store.state.device, true, id, native)
      ensures ok == (Find(store.state.device.rows, id).Some? && RemovalConfirmed(store.state.device, id, native, true))
    {
      var db := new Database(store.state.device);
      var protection := new Protection(db, scope, true);
      var r := protection.Undo(id, native);
      return db.trail, r.Ok?;
    }

    /** Commits made by the device's protection, in the state that the cases share with it. */
    method Apply(disks: seq<Disk>)
      modifies store
      ensures store.Reached(old(store.state), old(store.trail), disks)
    {
      ghost var start, trail := store.state, store.trail;
      for i := 0 to |disks|
        invariant store.Reached(start, trail, disks[..i])
      {
        store.Commit(disks[i]);
      }
    }

    /** Undo the case's action; the case is reverted only when the removal is confirmed. */
    method RevertCase(key: Key, native: Native, now: int) returns (ok: bool)
      requires key in store.state.cases && store.state.cases[key].action.Some?
      modifies store
      ensures store.Reached(old(store.state), old(store.trail), ControlOutcome(old(store.state), policy, key, Revert(native), now).trace)
      ensures ok == ControlOutcome(old(store.state), policy, key, Revert(native), now).ok
    {
      ghost var start, trail := store.state, store.trail;
      var d := store.state.(clock := now);
      var c := d.cases[key];
      var undo;
      undo, ok := UndoOnDevice(c.action.value, native);
      var worlds := seq(|undo|, i requires 0 <= i < |undo| => d.(device := undo[i]));
      Apply(worlds);
      if ok {
        store.Commit(store.state.(cases := store.state.cases[key := c.(state := Reverted)]));
        store.Chain(start, trail, worlds, [store.state]);
      }
    }

    method Control(key: Key, cmd: Command, now: int) returns (ok: bool)
      modifies store
      ensures store.Reached(old(store.state), old(store.trail), ControlOutcome(old(store.state), policy, key, cmd, now).trace)
      ensures ok == ControlOutcome(old(store.state), policy, key, cmd, now).ok
    {
      if (cmd.Reject? || cmd.Defer?) && R.Blank(cmd.reason) { return false; }
      var d := store.state.(clock := now);
      if key !in d.cases { return false; }
      var c := d.cases[key];
      if cmd.Revert? {
        if c.action.None? { return false; }
        ok := RevertCase(key, cmd.native, now);
        return;
      }
      if !Open(c) { return false; }
      if cmd.Reject? {
        c := c.(state := Rejected);
      } else {
        if c.acknowledged { return false; }
        c := c.(acknowledged := true, extensions := c.extensions + 1);
        var w := Window(policy, c.severity);
        if w.Some? && c.deadline.Some? {
          c := c.(deadline := Some(Min(c.deadline.value + w.value, now + w.value)));
        }
      }
      store.Commit(d.(cases := d.cases[key := c]));
      return true;
    }

    method Execute(b: Block)
      requires b.key in store.state.cases && b.scope == scope
      modifies store
      ensures store.Reached(old(store.state), old(store.trail), ExecuteTrace(old(store.state), b))
    {
      var d, a := store.state, b.attempt;
      ghost var trail := store.trail;
      var c := d.cases[b.key];
      store.Commit(d.(clock := a.now, cases := d.cases[b.key := c.(state := Executing)]));
      ghost var started := store.state;
      var worlds, approved := ApproveOnDevice(Approval(b), a.native);
      var run := Lift(store.state, worlds, b);
      Apply(run);
      var done := if approved then c.(state := Contained, action := Some(a.id)) else c.(state := NeedsReview);
      store.Commit(store.state.(cases := store.state.cases[b.key := done]));
      assert store.trail == trail + ([started] + run + [store.state]);
    }

    method AtDeadline(key: Key, a: Attempt)
      modifies store
      ensures store.Reached(old(store.state), old(store.trail), DeadlineTrace(old(store.state), policy, scope, key, a))
    {
      var d := store.state.(clock := a.now);
      if key !in d.cases { return; }
      var c := d.cases[key];
      if c.state == Contained {
        var x := if c.action.Some? then Find(d.device.rows, c.action.value) else None;
        if x.None? || x.value.event != c.event || Shown(x.value, a.now) in {Status.Executed, ExpiryDue} { return; }
        store.Commit(d.(cases := d.cases[key := c.(state := Followed(x.value.status))]));
        return;
      }
      if c.state != Waiting || c.deadline.None? || a.now < c.deadline.value { return; }
      if c.brief.None? {
        if !c.alerted { store.Commit(d.(cases := d.cases[key := c.(alerted := true)])); }
        return;
      }
      var x := Reread(a.telemetry, c.event);
      if x.None? { return; }
      var b := Block(key, c.event, c.deadline.value, c.brief.value, d.stopped, policy, scope, x.value, a);
      if !MayBlock(b) {
        store.Commit(d.(cases := d.cases[key := c.(state := NeedsReview)]));
        return;
      }
      Execute(b);
    }
  }
}
