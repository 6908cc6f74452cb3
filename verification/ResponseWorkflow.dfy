/** First-level review deadlines and the narrow, explicitly enrolled responses that follow them. */
module ResponseWorkflow {
  import opened Wrappers
  import opened Containment
  import opened Protection

  // ---- cases --------------------------------------------------------------------

  datatype Severity = Critical | High | Medium | Low

  function Window(s: Severity): Option<nat> {
    match s
    case Critical => Some(60)
    case High => Some(300)
    case Medium => Some(1800)
    case Low => None
  }

  datatype CaseState = Waiting | Overdue | Reviewed | Rejected | Executing | Blocked | NeedsReview | Reverted | Lapsed

  datatype Mode = ReviewOnly | Automatic | Manual

  /** The account or process an incident is bound to: host, user, process id, name and GUID. */
  type Subject = seq<string>

  datatype Identity = Identity(subject: Subject, rule: Rule, target: Ip)

  /** What an operator enrolled when scheduling a response. */
  datatype Plan = Plan(identity: Identity, protected: seq<Network>, actor: string)

  datatype Case = Case(event: EventId, severity: Severity, created: int, deadline: Option<int>, state: CaseState,
                       mode: Mode, deferred: bool, plan: Option<Plan>, action: Option<ActionId>)

  /** A telemetry row as the workflow reads it. */
  datatype Finding = Finding(event: EventId, evidence: Evidence, severity: real, guardrail: bool,
                             completedAt: Option<int>, subject: Subject)

  function Max(a: real, b: real): real { if a >= b then a else b }

  function Score(f: Finding): real {
    var base := if f.guardrail then Max(f.severity, 9.0) else f.severity;
    if HasRule(f.evidence, MalwareProcessNetwork) then Max(base, 9.0)
    else if HasRule(f.evidence, RepeatedLoginFailures) then Max(base, 7.0)
    else base
  }

  function SeverityOf(score: real): Severity {
    if score >= 9.0 then Critical else if score >= 7.0 then High else if score >= 4.0 then Medium else Low
  }

  function Later(t: Option<int>, window: Option<nat>): Option<int> {
    if t.Some? && window.Some? then Some(t.value + window.value) else t
  }

  function NewCase(f: Finding, now: int): Case {
    var severity := SeverityOf(Score(f));
    var created := if f.completedAt.Some? then f.completedAt.value else now;
    Case(f.event, severity, created, if Window(severity).Some? then Some(created + Window(severity).value) else None,
         Waiting, ReviewOnly, false, None, None)
  }

  // ---- fresh evidence ------------------------------------------------------------------

  /** Whom a row is about: what fresh evidence must share with the original. */
  datatype Actor = Actor(username: string, userId: string, processId: string, processName: string, guid: string)

  /** A live row of the host. Its correlations are those that correlating it anew finds; a timestamp
      that does not parse has no age. */
  datatype Candidate = Candidate(age: Option<int>, actor: Actor, tagged: bool, evidence: Evidence)

  datatype Original = Original(actor: Actor, evidence: Evidence)

  /** The same account or process; for malware also a process that can be told apart from its successors. */
  predicate SameActor(rule: Rule, a: Actor, original: Actor) {
    if rule == RepeatedLoginFailures then a.username == original.username && a.userId == original.userId
    else
      && a.processId == original.processId && a.processName == original.processName
      && (rule == MalwareProcessNetwork ==> a.processName != "" && a.guid != "" && a.guid == original.guid)
  }

  function Supporting(cs: seq<Correlation>, rule: Rule): seq<Correlation> {
    if cs == [] then []
    else if cs[0].rule == rule && (rule == MalwareProcessNetwork ==> cs[0].verified) then [cs[0]] + Supporting(cs[1..], rule)
    else Supporting(cs[1..], rule)
  }

  /** The row with nothing but its own support for the enrolled rule. */
  function Checked(c: Candidate, rule: Rule): Evidence {
    c.evidence.(escalated := true, correlations := Supporting(c.evidence.correlations, rule))
  }

  predicate Qualifies(c: Candidate, original: Actor, plan: Plan, now: int) {
    var rule := plan.identity.rule;
    && c.age.Some? && 0 <= c.age.value <= 30
    && SameActor(rule, c.actor, original)
    && c.evidence.connector in {Windows, Sysmon} && !c.tagged
    && Supporting(c.evidence.correlations, rule) != []
    && Proposal(Checked(c, rule), None, now) == Some(plan.identity.target)
  }

  /** The first candidate that supports the enrolled response again. */
  function FreshEvidence(original: Actor, candidates: seq<Candidate>, plan: Plan, now: int): Option<Evidence> {
    if candidates == [] then None
    else if Qualifies(candidates[0], original, plan, now) then Some(Checked(candidates[0], plan.identity.rule))
    else FreshEvidence(original, candidates[1..], plan, now)
  }

  /** What one case's execution meets: the clock, the live rows of its host newest first, the original
      row re-read, a fresh action id, and the firewall's behaviour. */
  datatype Attempt = Attempt(now: int, candidates: seq<Candidate>, original: Option<Original>, id: ActionId, native: Native)

  function Rebuilt(plan: Plan, a: Attempt): Option<Evidence> {
    if a.original.None? then None else FreshEvidence(a.original.value.actor, a.candidates, plan, a.now)
  }

  predicate EvidenceHolds(plan: Plan, a: Attempt) {
    var rebuilt := Rebuilt(plan, a);
    && rebuilt.Some?
    && Permits(HostScope(plan.identity.target, plan.protected), plan.identity.target)
    && Proposal(a.original.value.evidence, None, a.now) == Proposal(rebuilt.value, None, a.now)
  }

  // ---- durable state ---------------------------------------------------------------

  /** The history the claims are about: accepted commands, the cases a stop found armed and those it
      disarmed, and native blocks the scheduler issued. */
  datatype Entry = Scheduled(event: EventId, at: int, deadline: int, plan: Plan)
                 | Stopped(armed: set<EventId>)
                 | Disarmed(event: EventId)
                 | Resumed
                 | Closed(event: EventId)
                 | Block(event: EventId, deadline: int, plan: Plan, attempt: Attempt)

  datatype Disk = Disk(cases: map<EventId, Case>, stopped: bool, device: World, log: seq<Entry>)

  function Put(d: Disk, c: Case): Disk { d.(cases := d.cases[c.event := c]) }

  function Logged(d: Disk, entry: Entry): Disk { d.(log := d.log + [entry]) }

  predicate Closable(f: Option<Finding>) { f.Some? && f.value.evidence.done && f.value.evidence.escalated }

  /** `ensure`: the first look at a completed escalation opens its case. */
  function EnsureTrace(d: Disk, f: Option<Finding>, now: int): seq<Disk> {
    if Closable(f) && f.value.event !in d.cases then [Put(d, NewCase(f.value, now))] else []
  }

  // ---- commands --------------------------------------------------------------------

  datatype Command = Undo(native: Native)
                   | Review(reason: string)
                   | Reject(reason: string)
                   | Defer(reason: string)
                   | Schedule(protected: Option<seq<Network>>, actor: string)

  datatype Outcome = Outcome(trace: seq<Disk>, ok: bool)

  predicate Blank(s: string) { forall c :: c in s ==> c in {' ', '\t', '\n', '\r'} }

  /** The rule that makes an incident eligible: the first enrolled one, malware only if verified. */
  function EligibleRule(cs: seq<Correlation>): Option<Rule> {
    if cs == [] then None
    else if cs[0].rule == RepeatedLoginFailures || (cs[0].rule == MalwareProcessNetwork && cs[0].verified) then Some(cs[0].rule)
    else EligibleRule(cs[1..])
  }

  /** The newest action of an event that `undo` accepts. */
  function Undoable(rows: seq<Action>, event: EventId, now: int): Option<Action> {
    if rows == [] then None
    else
      var last := rows[|rows| - 1];
      if last.event == event && Shown(last, now) in {Executed, ExpiryDue, Pending, Failed, CleanupFailed} then Some(last)
      else Undoable(rows[..|rows| - 1], event, now)
  }

  predicate IdentityTaken(cases: map<EventId, Case>, event: EventId, identity: Identity) {
    exists e :: e in cases && e != event && cases[e].plan.Some? && cases[e].plan.value.identity == identity
  }

  function HostScope(target: Ip, protected: seq<Network>): Scope { Scope([HostNetwork(target)], protected) }

  /** The plan a schedule command enrolls, if every check passes. */
  function Enrolled(d: Disk, c: Case, f: Finding, protected: Option<seq<Network>>, actor: string, now: int): Option<Plan> {
    if d.stopped || c.state != Waiting || c.deadline.None? || now >= c.deadline.value then None
    else
      var rule := EligibleRule(f.evidence.correlations);
      var target := Proposal(f.evidence, None, now);
      if rule.None? || target.None? then None
      else
        var identity := Identity(f.subject, rule.value, target.value);
        if IdentityTaken(d.cases, c.event, identity) then None
        else if protected.None? || !(1 <= |protected.value| <= 128) then None
        else if !Permits(HostScope(target.value, protected.value), target.value) then None
        else Some(Plan(identity, protected.value, actor))
  }

  function Lift(d: Disk, worlds: seq<World>): seq<Disk> {
    seq(|worlds|, i requires 0 <= i < |worlds| => d.(device := worlds[i]))
  }

  function UndoOutcome(d: Disk, c: Case, native: Native, now: int): Outcome {
    if c.state !in {Blocked, NeedsReview, Executing} then Outcome([], false)
    else match Undoable(d.device.rows, c.event, now)
      case None => Outcome([], false)
      case Some(a) =>
        var undo := Lift(d, UndoTrace(d.device, true, a.id, native));
        if Find(d.device.rows, a.id).Some? && RemovalConfirmed(d.device, a.id, native, true)
        then Outcome(undo + [Put(After(d, undo), c.(state := Reverted))], true)
        else Outcome(undo, false)
  }

  /** What a command does to an open case: the commits, and whether it was accepted. */
  function CaseOutcome(d: Disk, c: Case, f: Finding, cmd: Command, now: int): Outcome {
    if cmd.Undo? then UndoOutcome(d, c, cmd.native, now)
    else if c.state !in {Waiting, Overdue} then Outcome([], false)
    else match cmd
      case Review(reason) =>
        if Blank(reason) then Outcome([], false)
        else Outcome([Logged(Put(d, c.(state := Reviewed, mode := ReviewOnly)), Closed(c.event))], true)
      case Reject(reason) =>
        if Blank(reason) then Outcome([], false)
        else Outcome([Logged(Put(d, c.(state := Rejected, mode := ReviewOnly)), Closed(c.event))], true)
      case Defer(reason) =>
        if c.state != Waiting || c.deferred || c.deadline.None? || now >= c.deadline.value || Blank(reason) then Outcome([], false)
        else Outcome([Put(d, c.(deadline := Later(c.deadline, Window(c.severity)), deferred := true))], true)
      case Schedule(protected, actor) =>
        match Enrolled(d, c, f, protected, actor, now)
        case None => Outcome([], false)
        case Some(plan) =>
          Outcome([Logged(Put(d, c.(mode := Automatic, plan := Some(plan))), Scheduled(c.event, now, c.deadline.value, plan))], true)
  }

  function ControlOutcome(d: Disk, f: Option<Finding>, cmd: Command, now: int): Outcome {
    var first := EnsureTrace(d, f, now);
    var d1 := After(d, first);
    if !Closable(f) then Outcome([], false)
    else
      var result := CaseOutcome(d1, d1.cases[f.value.event], f.value, cmd, now);
      Outcome(first + result.trace, result.ok)
  }

  function Cancelled(d: Disk, e: EventId): seq<Disk> {
    if e in d.cases && Armed(d.cases[e])
    then [Logged(d.(cases := d.cases[e := d.cases[e].(mode := ReviewOnly)]), Disarmed(e))] else []
  }

  function Cancellations(order: seq<EventId>): Turns<Disk> {
    (i: nat, d: Disk) => if i < |order| then Cancelled(d, order[i]) else []
  }

  predicate Armed(c: Case) { c.state == Waiting && c.mode == Automatic }

  function ArmedCases(d: Disk): set<EventId> { set e | e in d.cases && Armed(d.cases[e]) }

  function Halted(d: Disk): Disk { Logged(d.(stopped := true), Stopped(ArmedCases(d))) }

  /** The emergency stop commits its setting first, then cancels enrolled cases one at a time. */
  function StopTrace(d: Disk, order: seq<EventId>): seq<Disk> {
    [Halted(d)] + UpTo(Halted(d), Cancellations(order), |order|)
  }

  function ResumeTrace(d: Disk): seq<Disk> { [Logged(d.(stopped := false), Resumed)] }

  // ---- the scheduler ------------------------------------------------------------------

  function ApprovalRequest(e: EventId, plan: Plan, a: Attempt): Request
    requires Rebuilt(plan, a).Some?
  {
    Request(e, Rebuilt(plan, a).value, Some(plan.identity.target), plan.actor, a.id, a.now)
  }

  /** The executor's commits under the case: the native block is logged once it has been issued. */
  function Executor(d: Disk, worlds: seq<World>, entry: Entry): seq<Disk> {
    seq(|worlds|, i requires 0 <= i < |worlds| =>
      if i == 0 then d.(device := worlds[0]) else d.(device := worlds[i], log := d.log + [entry]))
  }

  /** After the case reads executing: the executor's run when the evidence holds, then how it ended. */
  function AttemptTrace(started: Disk, c: Case, plan: Plan, deadline: int, a: Attempt): seq<Disk> {
    if !EvidenceHolds(plan, a) then [Put(started, c.(state := NeedsReview))]
    else
      var q, scope := ApprovalRequest(c.event, plan, a), Some(HostScope(plan.identity.target, plan.protected));
      var run := Executor(started, ApproveTrace(started.device, scope, true, q, a.native), Block(c.event, deadline, plan, a));
      var done := if Approved(started.device, scope, true, q, a.native) then c.(state := Blocked, action := Some(a.id))
                  else c.(state := NeedsReview);
      run + [Put(After(started, run), done)]
  }

  function ExecuteTrace(d: Disk, c: Case, plan: Plan, deadline: int, a: Attempt): seq<Disk> {
    var started := Put(d, c.(state := Executing));
    [started] + AttemptTrace(started, c, plan, deadline, a)
  }

  function DeadlineTrace(d: Disk, e: EventId, a: Attempt): seq<Disk> {
    if e !in d.cases then []
    else
      var c := d.cases[e];
      if c.state != Waiting || c.deadline.None? || a.now < c.deadline.value then []
      else if c.mode != Automatic || d.stopped || c.plan.None? then [Put(d, c.(state := Overdue))]
      else ExecuteTrace(d, c, c.plan.value, c.deadline.value, a)
  }

  function DeadlineTurns(due: seq<EventId>, attempt: EventId -> Attempt): Turns<Disk> {
    (i: nat, d: Disk) => if i < |due| then DeadlineTrace(d, due[i], attempt(due[i])) else []
  }

  function OpeningTurns(findings: seq<Finding>, now: int): Turns<Disk> {
    (i: nat, d: Disk) => if i < |findings| then EnsureTrace(d, Some(findings[i]), now) else []
  }

  function Reconciled(d: Disk, turn: ActionId -> Turn): seq<Disk> {
    Lift(d, ReconcileTrace(d.device, None, turn))
  }

  /** The action an executed case follows: its own, or the newest of its event. */
  function Followed(rows: seq<Action>, c: Case): Option<Action> {
    var own := if c.action.Some? then Find(rows, c.action.value) else None;
    if own.Some? && own.value.event == c.event then own else NewestOf(rows, c.event)
  }

  function NewestOf(rows: seq<Action>, event: EventId): Option<Action> {
    if rows == [] then None
    else if rows[|rows| - 1].event == event then Some(rows[|rows| - 1]) else NewestOf(rows[..|rows| - 1], event)
  }

  function SweepTrace(d: Disk, e: EventId): seq<Disk> {
    if e !in d.cases || d.cases[e].state != Blocked then []
    else match Followed(d.device.rows, d.cases[e])
      case None => []
      case Some(a) =>
        if a.status == Expired then [d.(cases := d.cases[e := d.cases[e].(state := Lapsed)])]
        else if a.status in {Undone, Recovered} then [d.(cases := d.cases[e := d.cases[e].(state := Reverted)])]
        else []
  }

  function SweepTurns(executed: seq<EventId>): Turns<Disk> {
    (i: nat, d: Disk) => if i < |executed| then SweepTrace(d, executed[i]) else []
  }

  /** Restart: an interrupted execution is handed to a person and never retried. */
  function Interrupted(d: Disk, e: EventId): seq<Disk> {
    if e in d.cases && d.cases[e].state == Executing then [d.(cases := d.cases[e := d.cases[e].(state := NeedsReview)])] else []
  }

  function Interruptions(order: seq<EventId>): Turns<Disk> {
    (i: nat, d: Disk) => if i < |order| then Interrupted(d, order[i]) else []
  }

  function RestartTrace(d: Disk, order: seq<EventId>): seq<Disk> { UpTo(d, Interruptions(order), |order|) }

  /** What a scheduler pass is given: unseen findings, row orders, and each attempt's surroundings. */
  datatype Pass = Pass(now: int, findings: seq<Finding>, due: seq<EventId>, attempt: EventId -> Attempt,
                       reconcile: bool, turn: ActionId -> Turn, executed: seq<EventId>)

  function FollowTrace(d: Disk, p: Pass): seq<Disk> {
    var t := if p.reconcile then Reconciled(d, p.turn) else [];
    t + UpTo(After(d, t), SweepTurns(p.executed), |p.executed|)
  }

  function ActTrace(d: Disk, p: Pass): seq<Disk> {
    var t := UpTo(d, DeadlineTurns(p.due, p.attempt), |p.due|);
    t + FollowTrace(After(d, t), p)
  }

  function TickTrace(d: Disk, p: Pass): seq<Disk> {
    var t := UpTo(d, OpeningTurns(p.findings, p.now), |p.findings|);
    t + ActTrace(After(d, t), p)
  }

  /** A manual action approved outside the scheduler: its device commits, then the case record. */
  function ManualTrace(d: Disk, f: Finding, worlds: seq<World>, ok: bool, undo: bool, now: int): seq<Disk> {
    var t1 := Lift(d, worlds);
    if !ok then t1
    else
      var d1 := After(d, t1);
      var t2 := EnsureTrace(d1, Some(f), now);
      var d2 := After(d1, t2);
      t1 + t2 + if f.event in d2.cases
                then [d2.(cases := d2.cases[f.event := d2.cases[f.event].(state := if undo then Reverted else Blocked, mode := Manual)])]
                else []
  }

  // ---- the service object ----------------------------------------------------------------

  class Workflow {
    const store: Database<Disk>

    constructor (store: Database<Disk>)
      ensures this.store == store
    {
      this.store := store;
    }

    method InterruptNext(order: seq<EventId>, i: nat, ghost start: Disk, ghost trail: seq<Disk>)
      requires i < |order| && store.Reached(start, trail, UpTo(start, Interruptions(order), i))
      modifies store
      ensures store.Reached(start, trail, UpTo(start, Interruptions(order), i + 1))
    {
      var d, e := store.state, order[i];
      if e in d.cases && d.cases[e].state == Executing {
        store.Commit(d.(cases := d.cases[e := d.cases[e].(state := NeedsReview)]));
      }
      store.Turn(start, trail, Interruptions(order), i);
    }

    /** The constructor's recovery pass over the stored cases. */
    method Recover(order: seq<EventId>)
      modifies store
      ensures store.Reached(old(store.state), old(store.trail), RestartTrace(old(store.state), order))
    {
      ghost var start, trail := store.state, store.trail;
      for i := 0 to |order|
        invariant store.Reached(start, trail, UpTo(start, Interruptions(order), i))
      {
        InterruptNext(order, i, start, trail);
      }
    }

    method Ensure(f: Option<Finding>, now: int)
      modifies store
      ensures store.Reached(old(store.state), old(store.trail), EnsureTrace(old(store.state), f, now))
    {
      if Closable(f) && f.value.event !in store.state.cases {
        store.Commit(Put(store.state, NewCase(f.value, now)));
      }
    }

    method CancelNext(order: seq<EventId>, i: nat, ghost start: Disk, ghost trail: seq<Disk>)
      requires i < |order| && store.Reached(start, trail, UpTo(start, Cancellations(order), i))
      modifies store
      ensures store.Reached(start, trail, UpTo(start, Cancellations(order), i + 1))
    {
      var d, e := store.state, order[i];
      if e in d.cases && d.cases[e].state == Waiting && d.cases[e].mode == Automatic {
        store.Commit(Logged(d.(cases := d.cases[e := d.cases[e].(mode := ReviewOnly)]), Disarmed(e)));
      }
      store.Turn(start, trail, Cancellations(order), i);
    }

    method Stop(order: seq<EventId>)
      modifies store
      ensures store.Reached(old(store.state), old(store.trail), StopTrace(old(store.state), order))
    {
      ghost var start, trail := store.state, store.trail;
      store.Commit(Logged(store.state.(stopped := true), Stopped(ArmedCases(store.state))));
      ghost var halted := store.state;
      for i := 0 to |order|
        invariant store.Reached(halted, trail + [halted], UpTo(halted, Cancellations(order), i))
      {
        CancelNext(order, i, halted, trail + [halted]);
      }
      store.Chain(start, trail, [halted], UpTo(halted, Cancellations(order), |order|));
    }

    method Resume()
      modifies store
      ensures store.Reached(old(store.state), old(store.trail), ResumeTrace(old(store.state)))
    {
      store.Commit(Logged(store.state.(stopped := false), Resumed));
    }

    /** An approval by an executor built for this one target; its commits are returned for the shared state. */
    method ApproveOnDevice(scope: Scope, q: Request, native: Native) returns (run: seq<World>, ok: bool)
      ensures run == ApproveTrace(store.state.device, Some(scope), true, q, native)
      ensures ok == Approved(store.state.device, Some(scope), true, q, native)
    {
      var db := new Database(store.state.device);
      var executor := new Protection(db, Some(scope), true);
      var r := executor.Approve(q, native);
      return db.trail, r.Ok?;
    }

    method UndoOnDevice(id: ActionId, native: Native) returns (run: seq<World>, ok: bool)
      ensures run == UndoTrace(store.state.device, true, id, native)
      ensures ok == (Find(store.state.device.rows, id).Some? && RemovalConfirmed(store.state.device, id, native, true))
    {
      var db := new Database(store.state.device);
      var protection := new Protection(db, None, true);
      var r := protection.Undo(id, native);
      return db.trail, r.Ok?;
    }

    method ReconcileOnDevice(turn: ActionId -> Turn) returns (run: seq<World>)
      ensures run == ReconcileTrace(store.state.device, None, turn)
    {
      var db := new Database(store.state.device);
      var protection := new Protection(db, None, true);
      protection.Reconcile(turn);
      return db.trail;
    }

    /** Commits made by the device's protection, in the state that the cases share with it. */
    method Apply(disks: seq<Disk>)
      modifies store
      ensures store.Reached(old(store.state), old(store.trail), disks)
    {
      ghost var start, trail := store.state, store.trail;
      for i := 0 to |disks|
        invariant store.Reached(start, trail, disks[..i])
      {
        store.Commit(disks[i]);
      }
    }

    method UndoCase(c: Case, native: Native, now: int) returns (ok: bool)
      modifies store
      ensures store.Reached(old(store.state), old(store.trail), UndoOutcome(old(store.state), c, native, now).trace)
      ensures ok == UndoOutcome(old(store.state), c, native, now).ok
    {
      if c.state !in {Blocked, NeedsReview, Executing} { return false; }
      var a := Undoable(store.state.device.rows, c.event, now);
      if a.None? { return false; }
      ghost var start, trail := store.state, store.trail;
      var run;
      run, ok := UndoOnDevice(a.value.id, native);
      Apply(Lift(store.state, run));
      if ok {
        store.Commit(Put(store.state, c.(state := Reverted)));
        store.Chain(start, trail, Lift(start, run), [store.state]);
      }
    }

    /** A command other than undo on a case that is still open. */
    method CommandCase(c: Case, f: Finding, cmd: Command, now: int) returns (ok: bool)
      requires !cmd.Undo?
      modifies store
      ensures store.Reached(old(store.state), old(store.trail), CaseOutcome(old(store.state), c, f, cmd, now).trace)
      ensures ok == CaseOutcome(old(store.state), c, f, cmd, now).ok
    {
      if c.state !in {Waiting, Overdue} { return false; }
      var next, entry := c, None;
      match cmd {
        case Review(reason) =>
          if Blank(reason) { return false; }
          next, entry := c.(state := Reviewed, mode := ReviewOnly), Some(Closed(c.event));
        case Reject(reason) =>
          if Blank(reason) { return false; }
          next, entry := c.(state := Rejected, mode := ReviewOnly), Some(Closed(c.event));
        case Defer(reason) =>
          if c.state != Waiting || c.deferred || c.deadline.None? || now >= c.deadline.value { return false; }
          if Blank(reason) { return false; }
          next := c.(deadline := Later(c.deadline, Window(c.severity)), deferred := true);
        case Schedule(protected, actor) =>
          var plan := Enrol(c, f, protected, actor, now);
          if plan.None? { return false; }
          next, entry := c.(mode := Automatic, plan := plan), Some(Scheduled(c.event, now, c.deadline.value, plan.value));
      }
      store.Commit(if entry.Some? then Logged(Put(store.state, next), entry.value) else Put(store.state, next));
      return true;
    }

    /** The checks of a schedule command, in order. */
    method Enrol(c: Case, f: Finding, protected: Option<seq<Network>>, actor: string, now: int) returns (plan: Option<Plan>)
      ensures plan == Enrolled(store.state, c, f, protected, actor, now)
      ensures plan.Some? ==> c.deadline.Some?
    {
      if store.state.stopped { return None; }
      if c.state != Waiting || c.deadline.None? || now >= c.deadline.value { return None; }
      var target := Proposal(f.evidence, None, now);
      var rule := EligibleRule(f.evidence.correlations);
      if rule.None? || target.None? { return None; }
      var identity := Identity(f.subject, rule.value, target.value);
      if IdentityTaken(store.state.cases, c.event, identity) { return None; }
      if protected.None? || !(1 <= |protected.value| <= 128) { return None; }
      if !Permits(HostScope(target.value, protected.value), target.value) { return None; }
      return Some(Plan(identity, protected.value, actor));
    }

    method Control(f: Option<Finding>, cmd: Command, now: int) returns (ok: bool)
      modifies store
      ensures store.Reached(old(store.state), old(store.trail), ControlOutcome(old(store.state), f, cmd, now).trace)
      ensures ok == ControlOutcome(old(store.state), f, cmd, now).ok
    {
      if !Closable(f) { return false; }
      ghost var start, trail := store.state, store.trail;
      Ensure(f, now);
      ghost var mid := store.state;
      var c := store.state.cases[f.value.event];
      if cmd.Undo? { ok := UndoCase(c, cmd.native, now); } else { ok := CommandCase(c, f.value, cmd, now); }
      store.Chain(start, trail, EnsureTrace(start, f, now), CaseOutcome(mid, c, f.value, cmd, now).trace);
    }

    /** The loop over the live rows of the host; prose of the model never suffices. */
    method FindEvidence(original: Actor, candidates: seq<Candidate>, plan: Plan, now: int) returns (r: Option<Evidence>)
      ensures r == FreshEvidence(original, candidates, plan, now)
    {
      var rule := plan.identity.rule;
      for i := 0 to |candidates|
        invariant FreshEvidence(original, candidates, plan, now) == FreshEvidence(original, candidates[i..], plan, now)
      {
        var c := candidates[i];
        if c.age.None? || !(0 <= c.age.value <= 30) || !SameActor(rule, c.actor, original) { continue; }
        if c.evidence.connector !in {Windows, Sysmon} || c.tagged { continue; }
        var eligible := Supporting(c.evidence.correlations, rule);
        if eligible == [] { continue; }
        var checked := c.evidence.(escalated := true, correlations := eligible);
        if Proposal(checked, None, now) == Some(plan.identity.target) { return Some(checked); }
      }
      return None;
    }

    /** Everything the evidence must still show at the deadline; the rebuilt row, if it does. */
    method CheckEvidence(plan: Plan, a: Attempt) returns (checked: Option<Evidence>)
      ensures checked == if EvidenceHolds(plan, a) then Rebuilt(plan, a) else None
    {
      if a.original.None? { return None; }
      checked := FindEvidence(a.original.value.actor, a.candidates, plan, a.now);
      if checked.None? { return None; }
      if !Permits(HostScope(plan.identity.target, plan.protected), plan.identity.target) { return None; }
      if Proposal(a.original.value.evidence, None, a.now) != Proposal(checked.value, None, a.now) { return None; }
    }

    /** Execute one enrolled response at its deadline. */
    method Execute(c: Case, plan: Plan, deadline: int, a: Attempt)
      modifies store
      ensures store.Reached(old(store.state), old(store.trail), ExecuteTrace(old(store.state), c, plan, deadline, a))
    {
      ghost var start, trail := store.state, store.trail;
      store.Commit(Put(store.state, c.(state := Executing)));
      ghost var started := store.state;
      var checked := CheckEvidence(plan, a);
      if checked.None? {
        store.Commit(Put(store.state, c.(state := NeedsReview)));
      } else {
        BlockTarget(c, plan, deadline, a);
      }
      store.Chain(start, trail, [started], AttemptTrace(started, c, plan, deadline, a));
    }

    /** The executor's approval, and the record of how it ended. */
    method BlockTarget(c: Case, plan: Plan, deadline: int, a: Attempt)
      requires EvidenceHolds(plan, a)
      modifies store
      ensures store.Reached(old(store.state), old(store.trail), AttemptTrace(old(store.state), c, plan, deadline, a))
    {
      ghost var start, trail := store.state, store.trail;
      var q := ApprovalRequest(c.event, plan, a);
      var worlds, approved := ApproveOnDevice(HostScope(plan.identity.target, plan.protected), q, a.native);
      var run := Executor(store.state, worlds, Block(c.event, deadline, plan, a));
      Apply(run);
      store.Commit(Put(store.state, if approved then c.(state := Blocked, action := Some(a.id)) else c.(state := NeedsReview)));
      store.Chain(start, trail, run, [store.state]);
    }

    method AtDeadline(e: EventId, a: Attempt)
      modifies store
      ensures store.Reached(old(store.state), old(store.trail), DeadlineTrace(old(store.state), e, a))
    {
      var d := store.state;
      if e !in d.cases { return; }
      var c := d.cases[e];
      if c.state != Waiting || c.deadline.None? || a.now < c.deadline.value { return; }
      if c.mode != Automatic || d.stopped || c.plan.None? {
        store.Commit(Put(d, c.(state := Overdue)));
      } else {
        Execute(c, c.plan.value, c.deadline.value, a);
      }
    }

    method Sweep(e: EventId)
      modifies store
      ensures store.Reached(old(store.state), old(store.trail), SweepTrace(old(store.state), e))
    {
      var d := store.state;
      if e !in d.cases || d.cases[e].state != Blocked { return; }
      var action := Followed(d.device.rows, d.cases[e]);
      if action.None? { return; }
      if action.value.status == Expired {
        store.Commit(d.(cases := d.cases[e := d.cases[e].(state := Lapsed)]));
      } else if action.value.status in {Undone, Recovered} {
        store.Commit(d.(cases := d.cases[e := d.cases[e].(state := Reverted)]));
      }
    }

    method OpenNext(findings: seq<Finding>, now: int, i: nat, ghost start: Disk, ghost trail: seq<Disk>)
      requires i < |findings| && store.Reached(start, trail, UpTo(start, OpeningTurns(findings, now), i))
      modifies store
      ensures store.Reached(start, trail, UpTo(start, OpeningTurns(findings, now), i + 1))
    {
      Ensure(Some(findings[i]), now);
      store.Turn(start, trail, OpeningTurns(findings, now), i);
    }

    method OpenCases(findings: seq<Finding>, now: int)
      modifies store
      ensures store.Reached(old(store.state), old(store.trail), UpTo(old(store.state), OpeningTurns(findings, now), |findings|))
    {
      ghost var start, trail := store.state, store.trail;
      for i := 0 to |findings|
        invariant store.Reached(start, trail, UpTo(start, OpeningTurns(findings, now), i))
      {
        OpenNext(findings, now, i, start, trail);
      }
    }

    method NextDeadline(due: seq<EventId>, attempt: EventId -> Attempt, i: nat, ghost start: Disk, ghost trail: seq<Disk>)
      requires i < |due| && store.Reached(start, trail, UpTo(start, DeadlineTurns(due, attempt), i))
      modifies store
      ensures store.Reached(start, trail, UpTo(start, DeadlineTurns(due, attempt), i + 1))
    {
      AtDeadline(due[i], attempt(due[i]));
      store.Turn(start, trail, DeadlineTurns(due, attempt), i);
    }

    method Deadlines(due: seq<EventId>, attempt: EventId -> Attempt)
      modifies store
      ensures store.Reached(old(store.state), old(store.trail), UpTo(old(store.state), DeadlineTurns(due, attempt), |due|))
    {
      ghost var start, trail := store.state, store.trail;
      var i: nat := 0;
      while i < |due|
        invariant i <= |due| && store.Reached(start, trail, UpTo(start, DeadlineTurns(due, attempt), i))
      {
        NextDeadline(due, attempt, i, start, trail);
        i := i + 1;
      }
    }

    method SweepNext(executed: seq<EventId>, i: nat, ghost start: Disk, ghost trail: seq<Disk>)
      requires i < |executed| && store.Reached(start, trail, UpTo(start, SweepTurns(executed), i))
      modifies store
      ensures store.Reached(start, trail, UpTo(start, SweepTurns(executed), i + 1))
    {
      Sweep(executed[i]);
      store.Turn(start, trail, SweepTurns(executed), i);
    }

    method Sweeps(executed: seq<EventId>)
      modifies store
      ensures store.Reached(old(store.state), old(store.trail), UpTo(old(store.state), SweepTurns(executed), |executed|))
    {
      ghost var start, trail := store.state, store.trail;
      for i := 0 to |executed|
        invariant store.Reached(start, trail, UpTo(start, SweepTurns(executed), i))
      {
        SweepNext(executed, i, start, trail);
      }
    }

    method Follow(p: Pass)
      modifies store
      ensures store.Reached(old(store.state), old(store.trail), FollowTrace(old(store.state), p))
    {
      ghost var start, trail := store.state, store.trail;
      ghost var t := if p.reconcile then Reconciled(start, p.turn) else [];
      if p.reconcile {
        var run := ReconcileOnDevice(p.turn);
        Apply(Lift(store.state, run));
      }
      ghost var mid := store.state;
      Sweeps(p.executed);
      store.Chain(start, trail, t, UpTo(mid, SweepTurns(p.executed), |p.executed|));
    }

    method Act(p: Pass)
      modifies store
      ensures store.Reached(old(store.state), old(store.trail), ActTrace(old(store.state), p))
    {
      ghost var start, trail := store.state, store.trail;
      Deadlines(p.due, p.attempt);
      ghost var mid := store.state;
      Follow(p);
      store.Chain(start, trail, UpTo(start, DeadlineTurns(p.due, p.attempt), |p.due|), FollowTrace(mid, p));
    }

    /** One scheduler pass: open cases, act on passed deadlines, reconcile, follow the actions. */
    method Tick(p: Pass)
      modifies store
      ensures store.Reached(old(store.state), old(store.trail), TickTrace(old(store.state), p))
    {
      ghost var start, trail := store.state, store.trail;
      OpenCases(p.findings, p.now);
      ghost var mid := store.state;
      Act(p);
      store.Chain(start, trail, UpTo(start, OpeningTurns(p.findings, p.now), |p.findings|), ActTrace(mid, p));
    }
  }
}
