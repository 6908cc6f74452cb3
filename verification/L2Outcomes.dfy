/** How second-level observations, commands and deadlines end, in the terms of cases, rows, native rules
    and evidence. */
module L2Outcomes {
  import opened Wrappers
  import opened Containment
  import opened Protection
  import opened L2Workflow
  import opened L2Runs
  import R = ResponseWorkflow
  import E = L2Evidence
  import S = L2Support
  import P = ProtectionOutcomes
  import PR = ProtectionRuns

  // ---- what a block is made on ----------------------------------------------------------

  /** The policy in force enrols the rule; the row is at most thirty seconds old and proposes an address, which
      is the one the brief names; and the brief, confident, is sanctioned by the facts of the time. */
  ghost predicate Grounds(b: Block) {
    var a, x := b.attempt, b.reading;
    && b.policy.automatic && (exists rule :: rule in b.policy.rules && b.brief.receipt.rule == Some(rule))
    && x.row.id == b.event && x.row.timestamp <= a.now <= x.row.timestamp + 30
    && (exists ip :: P.Blockable(x.evidence, b.scope, a.now, ip))
    && b.brief.action == E.BlockIp && b.brief.confidence >= 0.95
    && b.brief.target == Some(E.Field(x.row, if P.Correlated(x.evidence, RepeatedLoginFailures) then "src_ip" else "dst_ip"))
    && S.Sanctioned(b.brief, x.row, a.related, b.brief.target, a.now, a.host)
  }

  lemma ProposedIsBlockable(e: Evidence, scope: Option<Scope>, now: int)
    ensures Proposal(e, scope, now).Some? <==> exists ip :: P.Blockable(e, scope, now, ip)
  {
    forall ip { P.ProposalIsBlockable(e, scope, now, ip); }
    if Proposal(e, scope, now).Some? { assert P.Blockable(e, scope, now, Proposal(e, scope, now).value); }
  }

  /** Exactly a block with such grounds, while not halted, may be made. */
  lemma MayBlockMeans(b: Block)
    requires b.reading.row.id == b.event
    ensures MayBlock(b) <==> !b.halted && Grounds(b)
  {
    var a, x := b.attempt, b.reading;
    ProposedIsBlockable(x.evidence, b.scope, a.now);
    P.CorrelatedRule(x.evidence, RepeatedLoginFailures);
    S.AuthorizeMeans(b.brief, x.row, a.related, Some(Written(x)), a.now, a.host);
  }

  /** Over every run, each block was due, was not made while automatic action was halted, and had its grounds. */
  lemma EveryBlockHasGrounds(start: int, steps: seq<Step>, b: nat)
    requires b < |Run(Empty(start), steps).log|
    ensures var x := Run(Empty(start), steps).log[b]; x.attempt.now >= x.deadline && !x.halted && Grounds(x)
  {
    RunGood(Empty(start), steps);
    var x := Run(Empty(start), steps).log[b];
    assert Justified(x);
    MayBlockMeans(x);
  }

  /** While automatic action is halted, no step adds a block or a native rule. */
  lemma HaltedNeverBlocks(d: Disk, s: Step)
    requires d.stopped
    ensures Next(d, s).log == d.log && Next(d, s).device.native <= d.device.native
  {
    EveryRuleIsLogged(d, s);
  }

  // ---- a deadline -------------------------------------------------------------------------

  /** The block that the turn of a waiting case would make. */
  function Candidate(d: Disk, p: Policy, scope: Option<Scope>, key: Key, x: Reading, a: Attempt): Block
    requires key in d.cases && d.cases[key].deadline.Some? && d.cases[key].brief.Some?
  {
    var c := d.cases[key];
    L2Workflow.Block(key, c.event, c.deadline.value, c.brief.value, d.stopped, p, scope, x, a)
  }

  /** The approval that it asks for. */
  function Asked(b: Block): Request {
    Request(b.event, b.reading.evidence, Proposal(b.reading.evidence, b.scope, b.attempt.now), "l2-policy", b.attempt.id, b.attempt.now)
  }

  ghost predicate Lands(w: World, b: Block) { P.Blocks(b.attempt.native, true) && exists ip :: P.Admissible(w, b.scope, Asked(b), ip) }

  /** The device after the approval of a block. */
  ghost predicate Leaves(w: World, b: Block, w': World) {
    && ((forall ip :: !P.Admissible(w, b.scope, Asked(b), ip)) ==> w' == w)
    && forall ip :: P.Admissible(w, b.scope, Asked(b), ip) ==>
         w' == World(w.rows + [P.EndRow(Asked(b), ip, b.attempt.native, true)],
                     if P.Leaves(b.attempt.native, true) then w.native + {b.attempt.id} else w.native)
  }

  lemma LiftEnds(d: Disk, worlds: seq<World>, b: Block)
    ensures var d' := After(d, Lift(d, worlds, b)); d'.device == After(d.device, worlds) && d'.cases == d.cases && d'.stopped == d.stopped
  {}

  lemma DeviceLeft(w: World, b: Block)
    requires PR.FreshId(w, b.attempt.id)
    ensures Leaves(w, b, After(w, ApproveTrace(w, b.scope, true, Asked(b), b.attempt.native)))
  {
    P.ApproveOutcome(w, b.scope, true, Asked(b), b.attempt.native);
  }

  lemma ExecuteEnds(d: Disk, b: Block)
    requires b.key in d.cases && PR.FreshId(d.device, b.attempt.id)
    ensures var d', c := After(d, ExecuteTrace(d, b)), d.cases[b.key];
            && d'.stopped == d.stopped && Leaves(d.device, b, d'.device)
            && (Lands(d.device, b) ==> d'.cases == d.cases[b.key := c.(state := Contained, action := Some(b.attempt.id))])
            && (!Lands(d.device, b) ==> d'.cases == d.cases[b.key := c.(state := NeedsReview)])
  {
    var c, a := d.cases[b.key], b.attempt;
    var started := d.(clock := a.now, cases := d.cases[b.key := c.(state := Executing)]);
    var worlds := ApproveTrace(d.device, b.scope, true, Asked(b), a.native);
    assert Approval(b) == Asked(b);
    P.ApproveOutcome(d.device, b.scope, true, Asked(b), a.native);
    DeviceLeft(d.device, b);
    LiftEnds(started, worlds, b);
    assert After(d, ExecuteTrace(d, b)).device == After(started, Lift(started, worlds, b)).device;
  }

  /**
   * How the deadline of a waiting case ends. Without a brief a person is alerted once; with one whose row is
   * gone the pass raises. Otherwise it is contained exactly when there are grounds, automatic action is not
   * halted, the address can be blocked and the firewall blocks it, and else needs review.
   */
  lemma DeadlineOutcome(d: Disk, p: Policy, scope: Option<Scope>, key: Key, a: Attempt)
    requires key in d.cases && d.cases[key].state == Waiting && PR.FreshId(d.device, a.id)
    ensures var d', c := After(d, DeadlineTrace(d, p, scope, key, a)), d.cases[key];
            if c.deadline.None? || c.deadline.value > a.now then d' == d
            else if c.brief.None? then d'.device == d.device && d'.log == d.log && d'.cases == d.cases[key := c.(alerted := true)]
            else match Reread(a.telemetry, c.event)
                 case None => d' == d
                 case Some(x) =>
                   var b := Candidate(d, p, scope, key, x, a);
                   if d.stopped || !Grounds(b) then
                     d'.device == d.device && d'.log == d.log && d'.cases == d.cases[key := c.(state := NeedsReview)]
                   else
                     && Leaves(d.device, b, d'.device)
                     && (Lands(d.device, b) ==> d'.cases == d.cases[key := c.(state := Contained, action := Some(a.id))])
                     && (!Lands(d.device, b) ==> d'.cases == d.cases[key := c.(state := NeedsReview)])
  {
    var c := d.cases[key];
    if c.deadline.Some? && c.deadline.value <= a.now {
      if c.brief.None? { assert d.cases[key := c] == d.cases; }
      else if Reread(a.telemetry, c.event).Some? {
        var b := Candidate(d, p, scope, key, Reread(a.telemetry, c.event).value, a);
        MayBlockMeans(b);
        ExecuteEnds(d, b);
      }
    }
  }

  /** A contained case takes the status of its own action once that is neither executed nor due to expire. */
  lemma FollowOutcome(d: Disk, p: Policy, scope: Option<Scope>, key: Key, a: Attempt)
    requires key in d.cases && d.cases[key].state == Contained
    ensures var d', c := After(d, DeadlineTrace(d, p, scope, key, a)), d.cases[key];
            && d'.device == d.device && d'.log == d.log
            && (c.action.None? ==> d' == d)
            && (c.action.Some? ==>
                  match Find(d.device.rows, c.action.value)
                  case None => d' == d
                  case Some(x) =>
                    d'.cases == if x.event == c.event && x.status !in {Executed, ExpiryDue}
                                then d.cases[key := c.(state := L2Workflow.Followed(x.status))] else d.cases)
  {}

  // ---- observations, results and commands --------------------------------------------------

  function Gravity(s: Sighting): Severity {
    if s.score >= 9.0 || s.verifiedCritical then Severity.Critical
    else if s.score >= 7.0 || s.repeatedLogins then Severity.High
    else if s.score >= 4.0 then Severity.Medium else Severity.Low
  }

  predicate Graver(s: Severity, than: Severity) {
    match s
    case Critical => !than.Critical?
    case High => than.Medium? || than.Low?
    case Medium => than.Low?
    case Low => false
  }

  /** When a case of that severity, opened or raised now, is due. */
  function DueAt(p: Policy, s: Severity, now: int): Option<int> {
    match s
    case Critical => Some(now + p.critical)
    case High => Some(now + p.high)
    case Medium => Some(now + p.medium)
    case Low => None
  }

  /** The first sighting opens a case. A later one that is not stale renews the event of an open case; if it is
      graver it also raises the case, drops its brief and makes it due at the earlier of two times. */
  lemma ObserveOutcome(d: Disk, p: Policy, key: Key, s: Sighting, now: int)
    ensures var t, g := ObserveTrace(d, p, key, s, now), Gravity(s);
            && |t| == 1 && t[0] == d.(clock := now, cases := t[0].cases)
            && (key !in d.cases ==>
                  t[0].cases == d.cases[key := Case(key, s.event, g, DueAt(p, g, now), Waiting, None, None, false, false, false, now, 0)])
            && (key in d.cases ==>
                  var c := d.cases[key];
                  if c.state !in {Waiting, NeedsReview} || s.stale then t[0].cases == d.cases
                  else if !Graver(g, c.severity) then t[0].cases == d.cases[key := c.(event := s.event)]
                  else exists due ::
                    && t[0].cases == d.cases[key := c.(event := s.event, severity := g, acknowledged := false, brief := None, base := now, deadline := due)]
                    && due in {DueAt(p, g, now), c.deadline} && due.Some?
                    && due.value <= DueAt(p, g, now).value && (c.deadline.Some? && c.deadline.value != 0 ==> due.value <= c.deadline.value)
                    && (due == c.deadline && c.deadline == Some(0) ==> DueAt(p, g, now) == Some(0)))
  {
    if key in d.cases { assert d.cases[key := d.cases[key]] == d.cases; }
    if key in d.cases && Graver(Gravity(s), d.cases[key].severity) {
      var c' := Raised(p, d.cases[key], s.event, Gravity(s), now);
      assert c'.deadline in {DueAt(p, Gravity(s), now), d.cases[key].deadline};
    }
  }

  /** A review's result counts for an open case at the severity it looked at: advice becomes its brief, and a
      failure calls a person. A deeper look only renews the brief of a waiting case. */
  lemma ResultOutcome(d: Disk, key: Key, level: Severity, brief: Option<E.Brief>, followUp: bool)
    requires key in d.cases
    ensures var d', c := After(d, ResultTrace(d, key, level, brief, followUp)), d.cases[key];
            var counts := c.state == Waiting || (!followUp && c.state == NeedsReview);
            && d' == d.(cases := d'.cases)
            && d'.cases == if !counts || (!followUp && level != c.severity) || (followUp && brief.None?) then d.cases
                           else d.cases[key := if brief.Some? then c.(brief := brief) else c.(failed := true, state := NeedsReview)]
  {
    assert d.cases[key := d.cases[key]] == d.cases;
  }

  predicate Says(reason: string) { exists i :: 0 <= i < |reason| && reason[i] !in {' ', '\t', '\n', '\r'} }

  lemma SaysSomething(reason: string)
    ensures Says(reason) <==> !R.Blank(reason)
  {
    assert forall i :: 0 <= i < |reason| ==> reason[i] in reason;
    assert forall c :: c in reason ==> exists i :: 0 <= i < |reason| && reason[i] == c;
  }

  predicate Reasoned(cmd: Command) { match cmd case Reject(reason) => Says(reason) case Defer(reason) => Says(reason) case _ => true }

  /** A rejection, an acknowledgement or a deferral is accepted for an open case, with a reason where one is
      asked for, and the extension only once; it lasts one window from now, but at most one beyond the old deadline. */
  lemma ReviewOutcome(d: Disk, p: Policy, key: Key, cmd: Command, now: int)
    requires key in d.cases && !cmd.Revert? && CaseOk(key, d.cases[key])
    ensures var c, r := d.cases[key], ControlOutcome(d, p, key, cmd, now);
            var d', due := After(d, r.trace), DueAt(p, c.severity, now);
            && (r.ok <==> Reasoned(cmd) && c.state in {Waiting, NeedsReview} && (cmd.Reject? || !c.acknowledged))
            && (!r.ok ==> d' == d) && d'.device == d.device && d'.log == d.log && d'.stopped == d.stopped
            && (r.ok && cmd.Reject? ==> d'.cases == d.cases[key := c.(state := L2Workflow.Rejected)])
            && (r.ok && !cmd.Reject? && due.None? ==>
                  d'.cases == d.cases[key := c.(acknowledged := true, extensions := c.extensions + 1)])
            && (r.ok && !cmd.Reject? && due.Some? ==>
                  var w := due.value - now;
                  d'.cases == d.cases[key := c.(acknowledged := true, extensions := c.extensions + 1,
                    deadline := Some(if c.deadline.value <= now then c.deadline.value + w else due.value))])
  {
    match cmd { case Reject(reason) => SaysSomething(reason); case Defer(reason) => SaysSomething(reason); case _ => }
  }

  /** A revert undoes the action of a case, and the case is reverted exactly when the removal is verified. */
  lemma RevertOutcome(d: Disk, p: Policy, key: Key, native: Native, now: int)
    requires key in d.cases
    ensures var c, r := d.cases[key], ControlOutcome(d, p, key, Revert(native), now);
            var d' := After(d, r.trace);
            && (r.ok <==> && c.action.Some? && (exists i :: 0 <= i < |d.device.rows| && d.device.rows[i].id == c.action.value)
                          && P.Removes(native, c.action.value in d.device.native, true))
            && d'.cases == (if r.ok then d.cases[key := c.(state := L2Workflow.Reverted)] else d.cases)
            && d'.device == if c.action.Some? then After(d.device, UndoTrace(d.device, true, c.action.value, native)) else d.device
  {
    var c := d.cases[key];
    if c.action.Some? {
      assert forall i :: 0 <= i < |d.device.rows| ==> d.device.rows[i] in d.device.rows;
    }
  }

  ghost predicate Handed(d: Disk, d': Disk, done: seq<Key>) {
    && d' == d.(cases := d'.cases) && d'.cases.Keys == d.cases.Keys
    && forall k :: k in d.cases ==>
         d'.cases[k] == if d.cases[k].state == Executing && k in done then d.cases[k].(state := NeedsReview) else d.cases[k]
  }

  /** A restart hands every execution it comes to to a person, and changes nothing else. */
  lemma RestartOutcome(d: Disk, order: seq<Key>)
    ensures Handed(d, After(d, RestartTrace(d, order)), order)
  {
    var at := (i: nat, s: Disk) => i <= |order| && Handed(d, s, order[..i]);
    forall i: nat, s: Disk | i < |order| && at(i, s) ensures at(i + 1, After(s, Interruptions(order)(i, s))) {
      assert order[..i + 1] == order[..i] + [order[i]];
    }
    TurnsReach(d, Interruptions(order), |order|, at);
    assert order[..|order|] == order;
  }
}
