/** How first-level commands and deadlines end, in the terms of cases, rows, native rules and evidence. */
module ResponseOutcomes {
  import opened Wrappers
  import opened Containment
  import opened Protection
  import opened ResponseWorkflow
  import P = ProtectionOutcomes
  import PR = ProtectionRuns
  import RR = ResponseRuns

  // ---- evidence -----------------------------------------------------------------------

  /** Repeated logins point at their source, the connection rules at the peer. */
  predicate PointsAt(e: Evidence, rule: Rule, ip: Ip) {
    match rule
    case RepeatedLoginFailures => e.src == Some(ip)
    case SuspiciousProcessNetwork => e.dst == Some(ip)
    case MalwareProcessNetwork => e.dst == Some(ip)
    case _ => false
  }

  /** A row of the last thirty seconds, about the same account or process, that shows the enrolled rule
      against the enrolled target on this device. */
  predicate Backs(c: Candidate, o: Actor, plan: Plan) {
    var rule, e := plan.identity.rule, c.evidence;
    && c.age.Some? && 0 <= c.age.value <= 30 && !c.tagged
    && e.connector in {Windows, Sysmon} && e.done && !e.replayed && e.shortHost
    && (rule == RepeatedLoginFailures ==> c.actor.username == o.username && c.actor.userId == o.userId)
    && (rule != RepeatedLoginFailures ==> c.actor.processId == o.processId && c.actor.processName == o.processName)
    && (rule == MalwareProcessNetwork ==> c.actor.processName != "" && c.actor.guid != "" && c.actor.guid == o.guid)
    && P.Correlated(e, rule) && PointsAt(e, rule, plan.identity.target) && plan.identity.target.isGlobal
  }

  lemma {:induction false} SupportingHolds(cs: seq<Correlation>, rule: Rule)
    ensures forall x :: x in Supporting(cs, rule) <==> x in cs && x.rule == rule && (rule == MalwareProcessNetwork ==> x.verified)
  {
    if cs != [] { SupportingHolds(cs[1..], rule); }
  }

  lemma CheckedRules(c: Candidate, rule: Rule, other: Rule)
    ensures P.Correlated(Checked(c, rule), other) <==> other == rule && P.Correlated(c.evidence, rule)
    ensures Supporting(c.evidence.correlations, rule) != [] <==> P.Correlated(c.evidence, rule)
  {
    SupportingHolds(c.evidence.correlations, rule);
    var xs := Supporting(c.evidence.correlations, rule);
    if xs != [] { assert xs[0] in xs && xs[0] in c.evidence.correlations; }
    P.CorrelatedRule(Checked(c, rule), other);
    P.CorrelatedRule(c.evidence, rule);
  }

  /** Exactly such rows qualify. */
  lemma QualifiesBacks(c: Candidate, o: Actor, plan: Plan, now: int)
    ensures Qualifies(c, o, plan, now) <==> Backs(c, o, plan)
  {
    var rule := plan.identity.rule;
    CheckedRules(c, rule, RepeatedLoginFailures);
    CheckedRules(c, rule, SuspiciousProcessNetwork);
    CheckedRules(c, rule, MalwareProcessNetwork);
    CheckedRules(c, rule, SustainedCpuTemporaryNetwork);
    P.ProposalIsBlockable(Checked(c, rule), None, now, plan.identity.target);
  }

  /** The first of the candidates that backs the plan. */
  predicate FirstBacks(candidates: seq<Candidate>, o: Actor, plan: Plan, i: nat) {
    && i < |candidates| && Backs(candidates[i], o, plan)
    && forall j :: 0 <= j < i ==> !Backs(candidates[j], o, plan)
  }

  lemma {:induction false} FreshEvidenceIsFirst(o: Actor, candidates: seq<Candidate>, plan: Plan, now: int) returns (i: nat)
    ensures match FreshEvidence(o, candidates, plan, now)
            case None => forall j :: 0 <= j < |candidates| ==> !Backs(candidates[j], o, plan)
            case Some(e) => FirstBacks(candidates, o, plan, i) && e == Checked(candidates[i], plan.identity.rule)
  {
    i := 0;
    if candidates != [] {
      QualifiesBacks(candidates[0], o, plan, now);
      if !Qualifies(candidates[0], o, plan, now) {
        var k := FreshEvidenceIsFirst(o, candidates[1..], plan, now);
        i := k + 1;
        assert forall j :: 0 < j < |candidates| ==> candidates[j] == candidates[1..][j - 1];
      }
    }
  }

  // ---- a deadline ---------------------------------------------------------------------

  predicate Unprotected(ip: Ip, protected: seq<Network>) {
    && !ip.special && !ip.v4Mapped
    && forall k :: 0 <= k < |protected| ==>
         ip.v6 != protected[k].v6 || ip.bits < protected[k].base || ip.bits >= protected[k].base + Size(protected[k])
  }

  lemma OneHostScope(target: Ip, protected: seq<Network>)
    ensures P.InScope(HostScope(target, protected), target) <==> Unprotected(target, protected)
  {
    var scope := HostScope(target, protected);
    assert Size(HostNetwork(target)) == Pow2(0) == 1;
    assert P.HostOf(scope.allowed[0], target);
  }

  /** From exactly this host and not five minutes old. */
  predicate Here(e: Evidence, now: int) { e.exactHost && e.timestamp.Some? && 0 <= now - e.timestamp.value <= 300 }

  /** Neither an action in force for this event nor a live block of this target. */
  predicate RoomBeside(x: Action, e: EventId, target: Ip, now: int) {
    && (x.event == e ==> x.status !in {Pending, CleanupFailed} && (x.status == Executed ==> x.expires < now))
    && (x.target == target ==> x.status !in {Pending, Executed, CleanupFailed})
  }

  /** What a block needs at its deadline: an original that still proposes the target, a first row that
      backs the plan from exactly this host, an unprotected target, and room for it. */
  predicate Passes(w: World, e: EventId, plan: Plan, a: Attempt) {
    var target := plan.identity.target;
    && a.original.Some? && P.Blockable(a.original.value.evidence, None, a.now, target)
    && (exists i :: 0 <= i < |a.candidates| && FirstBacks(a.candidates, a.original.value.actor, plan, i) && Here(a.candidates[i].evidence, a.now))
    && Unprotected(target, plan.protected)
    && (forall k :: 0 <= k < |w.rows| ==> RoomBeside(w.rows[k], e, target, a.now))
    && |P.LiveRows(w.rows)| <= 9
  }

  /** The evidence holds exactly when the original and some row show the plan and its target is unprotected. */
  predicate Holds(plan: Plan, a: Attempt, i: nat) {
    && a.original.Some? && P.Blockable(a.original.value.evidence, None, a.now, plan.identity.target)
    && FirstBacks(a.candidates, a.original.value.actor, plan, i) && Unprotected(plan.identity.target, plan.protected)
  }

  lemma EvidenceMeans(plan: Plan, a: Attempt) returns (i: nat)
    ensures EvidenceHolds(plan, a) <==> Holds(plan, a, i)
    ensures EvidenceHolds(plan, a) ==> Rebuilt(plan, a) == Some(Checked(a.candidates[i], plan.identity.rule))
    ensures forall j :: Holds(plan, a, j) ==> j == i
  {
    i := 0;
    if a.original.Some? {
      var o, target := a.original.value, plan.identity.target;
      i := FreshEvidenceIsFirst(o.actor, a.candidates, plan, a.now);
      P.ProposalIsBlockable(o.evidence, None, a.now, target);
      P.ScopePermits(HostScope(target, plan.protected), target);
      OneHostScope(target, plan.protected);
      if FirstBacks(a.candidates, o.actor, plan, i) { QualifiesBacks(a.candidates[i], o.actor, plan, a.now); }
    }
  }

  /** Over every run: each automatic block was due, and rested on a first row that backed its plan, an original that
      still proposed its target, and an unprotected target. */
  lemma EveryBlockIsBacked(steps: seq<RR.Step>, b: nat) returns (i: nat)
    requires b < |RR.Run(RR.EMPTY, steps).log| && RR.Run(RR.EMPTY, steps).log[b].Block?
    ensures var x := RR.Run(RR.EMPTY, steps).log[b]; x.attempt.now >= x.deadline && Holds(x.plan, x.attempt, i)
  {
    RR.EveryBlockIsAuthorized(steps, b);
    var x := RR.Run(RR.EMPTY, steps).log[b];
    assert RR.Warranted(RR.Run(RR.EMPTY, steps).log, b);
    i := EvidenceMeans(x.plan, x.attempt);
  }

  lemma CheckedBlockable(c: Candidate, o: Actor, plan: Plan, now: int)
    requires Backs(c, o, plan)
    ensures var scope := HostScope(plan.identity.target, plan.protected);
            P.Blockable(Checked(c, plan.identity.rule), Some(scope), now, plan.identity.target)
            <==> Here(c.evidence, now) && Unprotected(plan.identity.target, plan.protected)
  {
    var rule := plan.identity.rule;
    CheckedRules(c, rule, RepeatedLoginFailures);
    CheckedRules(c, rule, SuspiciousProcessNetwork);
    CheckedRules(c, rule, MalwareProcessNetwork);
    OneHostScope(plan.identity.target, plan.protected);
  }

  lemma FreeMeansRoom(w: World, scope: Scope, q: Request, target: Ip)
    ensures P.Free(w, Some(scope), q, target) <==>
              (forall k :: 0 <= k < |w.rows| ==> RoomBeside(w.rows[k], q.event, target, q.now)) && |P.LiveRows(w.rows)| <= 9
  {
    assert forall k: nat :: k in P.LiveRows(w.rows) <==> k < |w.rows| && w.rows[k].status in {Pending, Executed, CleanupFailed};
  }

  /** The executor's approval is admitted, for the enrolled target, exactly when the attempt passes. */
  lemma PassesIsAdmissible(w: World, e: EventId, plan: Plan, a: Attempt)
    ensures Passes(w, e, plan, a) <==>
              EvidenceHolds(plan, a)
              && P.Admissible(w, Some(HostScope(plan.identity.target, plan.protected)), ApprovalRequest(e, plan, a), plan.identity.target)
  {
    var target := plan.identity.target;
    var i := EvidenceMeans(plan, a);
    if EvidenceHolds(plan, a) {
      CheckedBlockable(a.candidates[i], a.original.value.actor, plan, a.now);
      FreeMeansRoom(w, HostScope(target, plan.protected), ApprovalRequest(e, plan, a), target);
    }
    if Passes(w, e, plan, a) {
      var j: nat :| j < |a.candidates| && FirstBacks(a.candidates, a.original.value.actor, plan, j) && Here(a.candidates[j].evidence, a.now);
      assert Holds(plan, a, j);
    }
  }

  lemma ExecutorEnds(started: Disk, worlds: seq<World>, entry: Entry)
    ensures var d := After(started, Executor(started, worlds, entry));
            d.device == After(started.device, worlds) && d.cases == started.cases && d.stopped == started.stopped
  {}

  /** The row that an attempt ends with, if it inserts one. */
  function Ending(e: EventId, plan: Plan, a: Attempt): Action {
    Action(a.id, e, plan.identity.target,
           if P.Blocks(a.native, true) then Executed else if P.Removes(a.native, a.native.block.leaves, true) then Failed else CleanupFailed,
           a.now + 300, plan.actor)
  }

  function DeviceAfter(w: World, e: EventId, plan: Plan, a: Attempt): World {
    if !Passes(w, e, plan, a) then w
    else World(w.rows + [Ending(e, plan, a)], if P.Leaves(a.native, true) then w.native + {a.id} else w.native)
  }

  predicate Blocked(w: World, e: EventId, plan: Plan, a: Attempt) { Passes(w, e, plan, a) && P.Blocks(a.native, true) }

  /** An approval with one expected address either inserts its row or does nothing. */
  lemma ExpectedApproval(w: World, scope: Option<Scope>, q: Request, target: Ip, n: Native)
    requires PR.FreshId(w, q.id) && q.expected == Some(target)
    ensures var w' := After(w, ApproveTrace(w, scope, true, q, n));
            && w' == (if !P.Admissible(w, scope, q, target) then w
                      else World(w.rows + [P.EndRow(q, target, n, true)], if P.Leaves(n, true) then w.native + {q.id} else w.native))
            && (Approved(w, scope, true, q, n) <==> P.Admissible(w, scope, q, target) && P.Blocks(n, true))
  {
    P.ApproveOutcome(w, scope, true, q, n);
    OnlyTheExpected(w, scope, q, target);
  }

  lemma ApprovalEnds(w: World, e: EventId, plan: Plan, a: Attempt)
    requires PR.FreshId(w, a.id) && EvidenceHolds(plan, a)
    ensures var scope, q := Some(HostScope(plan.identity.target, plan.protected)), ApprovalRequest(e, plan, a);
            && After(w, ApproveTrace(w, scope, true, q, a.native)) == DeviceAfter(w, e, plan, a)
            && (Approved(w, scope, true, q, a.native) <==> Blocked(w, e, plan, a))
  {
    var scope, q := HostScope(plan.identity.target, plan.protected), ApprovalRequest(e, plan, a);
    ExpectedApproval(w, Some(scope), q, plan.identity.target, a.native);
    EndsAs(w, e, plan, a, After(w, ApproveTrace(w, Some(scope), true, q, a.native)), Approved(w, Some(scope), true, q, a.native));
  }

  lemma EndsAs(w: World, e: EventId, plan: Plan, a: Attempt, w': World, approved: bool)
    requires EvidenceHolds(plan, a)
    requires var scope, q, target := Some(HostScope(plan.identity.target, plan.protected)), ApprovalRequest(e, plan, a), plan.identity.target;
             && w' == (if !P.Admissible(w, scope, q, target) then w
                       else World(w.rows + [P.EndRow(q, target, a.native, true)], if P.Leaves(a.native, true) then w.native + {a.id} else w.native))
             && (approved <==> P.Admissible(w, scope, q, target) && P.Blocks(a.native, true))
    ensures w' == DeviceAfter(w, e, plan, a) && (approved <==> Blocked(w, e, plan, a))
  {
    PassesIsAdmissible(w, e, plan, a);
  }

  /** No other address than the expected one is admissible. */
  lemma OnlyTheExpected(w: World, scope: Option<Scope>, q: Request, target: Ip)
    requires q.expected == Some(target)
    ensures (exists ip :: P.Admissible(w, scope, q, ip)) <==> P.Admissible(w, scope, q, target)
  {}

  function Closed(c: Case, w: World, plan: Plan, a: Attempt): Case {
    if Blocked(w, c.event, plan, a) then c.(state := CaseState.Blocked, action := Some(a.id)) else c.(state := NeedsReview)
  }

  lemma AttemptEnds(started: Disk, c: Case, plan: Plan, deadline: int, a: Attempt)
    requires PR.FreshId(started.device, a.id)
    ensures var d := After(started, AttemptTrace(started, c, plan, deadline, a));
            && d.stopped == started.stopped
            && d.cases == started.cases[c.event := Closed(c, started.device, plan, a)]
            && d.device == DeviceAfter(started.device, c.event, plan, a)
  {
    PassesIsAdmissible(started.device, c.event, plan, a);
    if EvidenceHolds(plan, a) {
      var scope, q := Some(HostScope(plan.identity.target, plan.protected)), ApprovalRequest(c.event, plan, a);
      ApprovalEnds(started.device, c.event, plan, a);
      ExecutorEnds(started, ApproveTrace(started.device, scope, true, q, a.native), Entry.Block(c.event, deadline, plan, a));
    }
  }

  /**
   * How the deadline of a case ends. Nothing happens to one that is not waiting or not due; one that is
   * not enrolled, or is due while stopped, is overdue; and an enrolled one is blocked exactly when the attempt
   * passes and the firewall blocks, and else needs review, with its own row and rule as the approval left them.
   */
  lemma DeadlineOutcome(d: Disk, e: EventId, a: Attempt)
    requires e in d.cases && d.cases[e].event == e && PR.FreshId(d.device, a.id)
    ensures var d', c := After(d, DeadlineTrace(d, e, a)), d.cases[e];
            if c.state != Waiting || c.deadline.None? || c.deadline.value > a.now then d' == d
            else if c.mode != Automatic || d.stopped || c.plan.None? then d' == d.(cases := d.cases[e := c.(state := Overdue)])
            else
              && d'.stopped == d.stopped && d'.device == DeviceAfter(d.device, e, c.plan.value, a)
              && d'.cases == d.cases[e := Closed(c, d.device, c.plan.value, a)]
  {
    var c := d.cases[e];
    if c.state == Waiting && c.deadline.Some? && a.now >= c.deadline.value && c.mode == Automatic && !d.stopped && c.plan.Some? {
      var started := ResponseWorkflow.Put(d, c.(state := Executing));
      AttemptEnds(started, c, c.plan.value, c.deadline.value, a);
      var t := AttemptTrace(started, c, c.plan.value, c.deadline.value, a);
      assert After(d, DeadlineTrace(d, e, a)) == After(started, t);
    }
  }

  /** The case reads blocked exactly when the action table then holds its executed row and the rule is there. */
  lemma BlockedMeansExecuted(d: Disk, e: EventId, a: Attempt)
    requires e in d.cases && d.cases[e].event == e && PR.FreshId(d.device, a.id)
    requires Armed(d.cases[e]) && d.cases[e].plan.Some? && !d.stopped
    requires d.cases[e].deadline.Some? && a.now >= d.cases[e].deadline.value
    ensures var d' := After(d, DeadlineTrace(d, e, a));
            && e in d'.cases
            && (d'.cases[e].state == CaseState.Blocked <==>
                  && a.id in d'.device.native
                  && Action(a.id, e, d.cases[e].plan.value.identity.target, Executed, a.now + 300, d.cases[e].plan.value.actor) in d'.device.rows)
            && (d'.cases[e].state == CaseState.Blocked ==> d'.cases[e].action == Some(a.id))
            && (d'.cases[e].state != CaseState.Blocked ==> d'.cases[e] == d.cases[e].(state := NeedsReview))
  {
    DeadlineOutcome(d, e, a);
    OnlyItsOwnRow(d.device, e, d.cases[e].plan.value, a);
  }

  /** After an attempt its executed row and rule are there exactly when it has blocked. */
  lemma OnlyItsOwnRow(w: World, e: EventId, plan: Plan, a: Attempt)
    requires PR.FreshId(w, a.id)
    ensures var w' := DeviceAfter(w, e, plan, a);
            Blocked(w, e, plan, a) <==>
              a.id in w'.native && Action(a.id, e, plan.identity.target, Executed, a.now + 300, plan.actor) in w'.rows
  {
    var row := Action(a.id, e, plan.identity.target, Executed, a.now + 300, plan.actor);
    assert row !in w.rows;
    assert row in w.rows + [Ending(e, plan, a)] <==> row == Ending(e, plan, a);
  }

  // ---- opening and closing a case --------------------------------------------------------

  predicate Says(reason: string) { exists i :: 0 <= i < |reason| && reason[i] !in {' ', '\t', '\n', '\r'} }

  lemma SaysSomething(reason: string)
    ensures Says(reason) <==> !Blank(reason)
  {
    assert forall i :: 0 <= i < |reason| ==> reason[i] in reason;
    assert forall c :: c in reason ==> exists i :: 0 <= i < |reason| && reason[i] == c;
  }

  predicate Grave(f: Finding) { f.severity >= 9.0 || f.guardrail || P.Correlated(f.evidence, MalwareProcessNetwork) }

  predicate Serious(f: Finding) { f.severity >= 7.0 || P.Correlated(f.evidence, RepeatedLoginFailures) }

  /** The first look at a completed escalation opens a case that is due a minute after its completion if it
      is critical, after five if it is high, after thirty if medium, and never if low. */
  lemma OpeningOutcome(d: Disk, f: Finding, now: int)
    requires f.event !in d.cases
    ensures var d', created := After(d, EnsureTrace(d, Some(f), now)), if f.completedAt.Some? then f.completedAt.value else now;
            if !f.evidence.done || !f.evidence.escalated then d' == d
            else
              d' == d.(cases := d.cases[f.event :=
                if Grave(f) then Case(f.event, Critical, created, Some(created + 60), Waiting, ReviewOnly, false, None, None)
                else if Serious(f) then Case(f.event, High, created, Some(created + 300), Waiting, ReviewOnly, false, None, None)
                else if f.severity >= 4.0 then Case(f.event, Medium, created, Some(created + 1800), Waiting, ReviewOnly, false, None, None)
                else Case(f.event, Low, created, None, Waiting, ReviewOnly, false, None, None)])
  {
    P.CorrelatedRule(f.evidence, MalwareProcessNetwork);
    P.CorrelatedRule(f.evidence, RepeatedLoginFailures);
  }

  predicate Finished(f: Finding) { f.evidence.done && f.evidence.escalated }

  /** A review or a reject closes an open case with a reason, and an extension is granted once, before the
      deadline, with a reason, for one more window; anything else is refused and changes nothing. */
  lemma ReasonedOutcome(d: Disk, f: Finding, cmd: Command, now: int)
    requires f.event in d.cases && d.cases[f.event].event == f.event && Finished(f) && (cmd.Review? || cmd.Reject? || cmd.Defer?)
    ensures var c, r := d.cases[f.event], ControlOutcome(d, Some(f), cmd, now);
            var d' := After(d, r.trace);
            && (r.ok <==> && Says(cmd.reason) && c.state in {Waiting, Overdue}
                          && (cmd.Defer? ==> c.state == Waiting && !c.deferred && c.deadline.Some? && now < c.deadline.value))
            && (!r.ok ==> d' == d)
            && d'.device == d.device && d'.stopped == d.stopped
            && (r.ok && !cmd.Defer? ==>
                  d'.cases == d.cases[f.event := c.(state := if cmd.Review? then Reviewed else CaseState.Rejected, mode := ReviewOnly)])
            && (r.ok && cmd.Defer? && !c.severity.Low? ==>
                  d'.cases == d.cases[f.event := c.(deferred := true, deadline := Some(c.deadline.value
                    + if c.severity == Critical then 60 else if c.severity == High then 300 else 1800))])
  {
    SaysSomething(cmd.reason);
  }

  predicate Enrollable(x: Correlation) { x.rule == RepeatedLoginFailures || (x.rule == MalwareProcessNetwork && x.verified) }

  predicate FirstEnrollable(cs: seq<Correlation>, i: nat) {
    i < |cs| && Enrollable(cs[i]) && forall j :: 0 <= j < i ==> !Enrollable(cs[j])
  }

  lemma {:induction false} EligibleIsFirst(cs: seq<Correlation>) returns (i: nat)
    ensures EligibleRule(cs).Some? <==> FirstEnrollable(cs, i)
    ensures EligibleRule(cs).Some? ==> EligibleRule(cs).value == cs[i].rule
    ensures forall j :: FirstEnrollable(cs, j) ==> j == i
  {
    i := 0;
    if cs != [] && !Enrollable(cs[0]) {
      var k := EligibleIsFirst(cs[1..]);
      i := k + 1;
      assert forall j :: 0 < j < |cs| ==> cs[j] == cs[1..][j - 1];
      assert forall j: nat :: 0 < j ==> (FirstEnrollable(cs, j) <==> FirstEnrollable(cs[1..], j - 1));
    }
  }

  /** The plan that a schedule of this case may enrol. */
  predicate Offers(d: Disk, f: Finding, protected: Option<seq<Network>>, actor: string, now: int, plan: Plan) {
    && f.event in d.cases
    && !d.stopped && d.cases[f.event].state == Waiting
    && d.cases[f.event].deadline.Some? && now < d.cases[f.event].deadline.value
    && protected == Some(plan.protected) && 1 <= |plan.protected| <= 128 && plan.actor == actor
    && plan.identity.subject == f.subject
    && P.Blockable(f.evidence, None, now, plan.identity.target) && Unprotected(plan.identity.target, plan.protected)
    && (exists i :: 0 <= i < |f.evidence.correlations| && FirstEnrollable(f.evidence.correlations, i)
                    && f.evidence.correlations[i].rule == plan.identity.rule)
    && (forall e :: e in d.cases && e != f.event && d.cases[e].plan.Some? ==> d.cases[e].plan.value.identity != plan.identity)
  }

  lemma EnrolledIsOffered(d: Disk, c: Case, f: Finding, protected: Option<seq<Network>>, actor: string, now: int, plan: Plan)
    requires f.event in d.cases && d.cases[f.event] == c && c.event == f.event
    ensures Enrolled(d, c, f, protected, actor, now) == Some(plan) <==> Offers(d, f, protected, actor, now, plan)
  {
    var i := EligibleIsFirst(f.evidence.correlations);
    var target := plan.identity.target;
    P.ProposalIsBlockable(f.evidence, None, now, target);
    P.ScopePermits(HostScope(target, plan.protected), target);
    OneHostScope(target, plan.protected);
  }

  /** A schedule is accepted exactly for the plan on offer, and then arms the case with it. */
  lemma ScheduleOutcome(d: Disk, f: Finding, protected: Option<seq<Network>>, actor: string, now: int)
    requires f.event in d.cases && d.cases[f.event].event == f.event && Finished(f)
    ensures var c, r := d.cases[f.event], ControlOutcome(d, Some(f), Schedule(protected, actor), now);
            && (!r.ok ==> After(d, r.trace) == d)
            && (r.ok <==> exists plan :: Offers(d, f, protected, actor, now, plan))
            && forall plan :: Offers(d, f, protected, actor, now, plan) ==>
                 After(d, r.trace).cases == d.cases[f.event := c.(mode := Automatic, plan := Some(plan))]
  {
    var c := d.cases[f.event];
    forall plan { EnrolledIsOffered(d, c, f, protected, actor, now, plan); }
    var plan := Enrolled(d, c, f, protected, actor, now);
    if plan.Some? { assert Offers(d, f, protected, actor, now, plan.value); }
  }

  // ---- undo and follow-up -----------------------------------------------------------------

  /** The newest action of the event that is not finished. */
  predicate Newest(rows: seq<Action>, e: EventId, i: nat) {
    && i < |rows| && Unfinished(rows[i], e)
    && forall j :: i < j < |rows| ==> !Unfinished(rows[j], e)
  }

  predicate Unfinished(x: Action, e: EventId) { x.event == e && x.status in {Executed, ExpiryDue, Pending, Failed, CleanupFailed} }

  lemma {:induction false} UndoableIsNewest(rows: seq<Action>, e: EventId, now: int) returns (i: nat)
    ensures match Undoable(rows, e, now)
            case None => forall j :: 0 <= j < |rows| ==> !Unfinished(rows[j], e)
            case Some(x) => Newest(rows, e, i) && rows[i] == x
  {
    i := 0;
    if rows != [] {
      var n := |rows| - 1;
      if Unfinished(rows[n], e) { i := n; } else { i := UndoableIsNewest(rows[..n], e, now); }
    }
  }

  /** An undo takes the newest unfinished action of an executed, executing or reviewable case, and the case
      is reverted exactly when the removal is verified. */
  lemma UndoCaseOutcome(d: Disk, f: Finding, native: Native, now: int) returns (i: nat)
    requires f.event in d.cases && d.cases[f.event].event == f.event && Finished(f)
    ensures var c, r := d.cases[f.event], ControlOutcome(d, Some(f), Undo(native), now);
            var d' := After(d, r.trace);
            if c.state !in {CaseState.Blocked, NeedsReview, Executing}
               || (forall j :: 0 <= j < |d.device.rows| ==> !Unfinished(d.device.rows[j], f.event))
            then !r.ok && d' == d
            else
              && Newest(d.device.rows, f.event, i)
              && (r.ok <==> P.Removes(native, d.device.rows[i].id in d.device.native, true))
              && d'.cases == (if r.ok then d.cases[f.event := c.(state := Reverted)] else d.cases)
              && d'.device == After(d.device, UndoTrace(d.device, true, d.device.rows[i].id, native))
  {
    i := UndoableIsNewest(d.device.rows, f.event, now);
    if i < |d.device.rows| {
      var id := d.device.rows[i].id;
      assert d.device.rows[i] in d.device.rows;
      LiftEnds(d, UndoTrace(d.device, true, id, native));
    }
  }

  lemma LiftEnds(d: Disk, worlds: seq<World>)
    ensures After(d, Lift(d, worlds)) == d.(device := After(d.device, worlds))
  {}

  /** What a blocked case follows: its own action, or without one of its event the newest of the event. */
  predicate Follows(rows: seq<Action>, c: Case, x: Action) {
    if c.action.Some? && Find(rows, c.action.value).Some? && Find(rows, c.action.value).value.event == c.event
    then Find(rows, c.action.value) == Some(x)
    else exists i :: 0 <= i < |rows| && rows[i] == x && x.event == c.event && forall j :: i < j < |rows| ==> rows[j].event != c.event
  }

  lemma {:induction false} NewestFollows(rows: seq<Action>, e: EventId)
    ensures match NewestOf(rows, e)
            case None => forall j :: 0 <= j < |rows| ==> rows[j].event != e
            case Some(x) => exists i :: 0 <= i < |rows| && rows[i] == x && x.event == e && forall j :: i < j < |rows| ==> rows[j].event != e
  {
    if rows != [] && rows[|rows| - 1].event != e { NewestFollows(rows[..|rows| - 1], e); }
  }

  /** A blocked case lapses when its action has expired and is reverted when it was undone or recovered. */
  lemma SweepOutcome(d: Disk, e: EventId)
    requires e in d.cases
    ensures var d', c := After(d, SweepTrace(d, e)), d.cases[e];
            && d' == d.(cases := d'.cases)
            && (c.state != CaseState.Blocked ==> d' == d)
            && (c.state == CaseState.Blocked && (forall x :: !Follows(d.device.rows, c, x)) ==> d' == d)
            && (c.state == CaseState.Blocked ==> forall x :: Follows(d.device.rows, c, x) ==>
                  d'.cases == match x.status
                              case Expired => d.cases[e := c.(state := Lapsed)]
                              case Undone => d.cases[e := c.(state := Reverted)]
                              case Recovered => d.cases[e := c.(state := Reverted)]
                              case _ => d.cases)
  {
    NewestFollows(d.device.rows, d.cases[e].event);
    var x := Followed(d.device.rows, d.cases[e]);
    if x.Some? { assert Follows(d.device.rows, d.cases[e], x.value); }
  }

  // ---- restart ------------------------------------------------------------------------------

  predicate Handed(d: Disk, d': Disk, done: seq<EventId>) {
    && d' == d.(cases := d'.cases) && d'.cases.Keys == d.cases.Keys
    && forall e :: e in d.cases ==>
         d'.cases[e] == if d.cases[e].state == Executing && e in done then d.cases[e].(state := NeedsReview) else d.cases[e]
  }

  /** A restart hands every execution it comes to to a person, and changes nothing else. */
  lemma RestartOutcome(d: Disk, order: seq<EventId>)
    ensures Handed(d, After(d, RestartTrace(d, order)), order)
  {
    var at := (i: nat, s: Disk) => i <= |order| && Handed(d, s, order[..i]);
    forall i: nat, s: Disk | i < |order| && at(i, s) ensures at(i + 1, After(s, Interruptions(order)(i, s))) {
      assert order[..i + 1] == order[..i] + [order[i]];
    }
    TurnsReach(d, Interruptions(order), |order|, at);
    assert order[..|order|] == order;
  }

  // ---- manual actions --------------------------------------------------------------------------

  /** A manual action that succeeds ends the case of its finding, opened if need be, as blocked or reverted by hand; one
      that fails touches no case. */
  lemma ManualOutcome(d: Disk, f: Finding, worlds: seq<World>, ok: bool, undo: bool, now: int)
    requires f.event in d.cases
    ensures var d' := After(d, ManualTrace(d, f, worlds, ok, undo, now));
            && d'.device == After(d.device, worlds) && d'.stopped == d.stopped
            && (!ok ==> d'.cases == d.cases)
            && (ok ==> d'.cases == d.cases[f.event := d.cases[f.event].(state := if undo then Reverted else CaseState.Blocked, mode := Manual)])
  {
    LiftEnds(d, worlds);
  }
}
