/** What holds of second-level cases and their automatic blocks over every run: whatever the clock
    reads, the configuration becomes, and a crash cuts off. */
module L2Runs {
  import opened Wrappers
  import opened Containment
  import opened Protection
  import opened L2Workflow
  import P = ProtectionRuns
  import E = L2Evidence
  import S = L2Support

  // ---- runs -----------------------------------------------------------------------------

  datatype Op = Observing(key: Key, sighting: Sighting, now: int)
              | Resulting(key: Key, level: Severity, brief: Option<E.Brief>, followUp: bool)
              | Expiring(key: Key, attempt: Attempt)
              | Commanding(key: Key, cmd: Command, now: int)
              | Halting(stopped: bool)
              | Reconciling(turn: ActionId -> Turn)
              | Restarting(order: seq<Key>)

  /** One operation under the configuration then running, which a crash may stop after `cut`
      commits; a large `cut` means no crash. */
  datatype Step = Step(policy: Policy, scope: Option<Scope>, op: Op, cut: nat)

  function Lifted(d: Disk, worlds: seq<World>): seq<Disk> {
    seq(|worlds|, i requires 0 <= i < |worlds| => d.(device := worlds[i]))
  }

  function OpTrace(d: Disk, p: Policy, scope: Option<Scope>, op: Op): seq<Disk> {
    match op
    case Observing(key, s, now) => ObserveTrace(d, p, key, s, now)
    case Resulting(key, level, brief, followUp) => ResultTrace(d, key, level, brief, followUp)
    case Expiring(key, a) => DeadlineTrace(d, p, scope, key, a)
    case Commanding(key, cmd, now) => ControlOutcome(d, p, key, cmd, now).trace
    case Halting(stopped) => [d.(stopped := stopped)]
    case Reconciling(turn) => Lifted(d, ReconcileTrace(d.device, scope, turn))
    case Restarting(order) => RestartTrace(d, order)
  }

  function Trace(d: Disk, s: Step): seq<Disk> { OpTrace(d, s.policy, s.scope, s.op) }

  function Next(d: Disk, s: Step): Disk { Cut(d, Trace(d, s), s.cut) }

  function Run(d: Disk, steps: seq<Step>): Disk
    decreases |steps|
  {
    if steps == [] then d else Run(Next(d, steps[0]), steps[1..])
  }

  function Empty(start: int): Disk { Disk(map[], false, World([], {}), [], start) }

  // ---- the invariant ------------------------------------------------------------------

  /** Only the least severity has no deadline; the extensions used and left are at most four. */
  predicate CaseOk(key: Key, c: Case) {
    && c.key == key
    && (c.deadline.None? <==> c.severity.Low?)
    && c.extensions + Rank(c.severity) + (if c.acknowledged then 0 else 1) <= 4
  }

  predicate CasesOk(d: Disk) { forall k :: k in d.cases ==> CaseOk(k, d.cases[k]) }

  /** The block was due and not halted, its policy enrolled its rule, its row was that of its event, fresh and with a
      proposal, and its brief, confident and for the address of the proposal, passed the re-check. */
  predicate Justified(b: Block) {
    var a, x, brief := b.attempt, b.reading, b.brief;
    && a.now >= b.deadline && !b.halted
    && Reread(a.telemetry, b.event) == Some(x)
    && b.policy.automatic && brief.receipt.rule.Some? && brief.receipt.rule.value in b.policy.rules
    && x.row.timestamp <= a.now <= x.row.timestamp + 30
    && Proposal(x.evidence, b.scope, a.now).Some? && brief.target == Some(Written(x))
    && brief.action == E.BlockIp && brief.confidence >= 0.95
    && E.Authorize(brief, x.row, a.related, brief.target, a.now, a.host)
  }

  predicate Closed(d: Disk, key: Key) { key in d.cases && d.cases[key].state != Waiting }

  predicate Once(log: seq<Block>) { forall a, b :: 0 <= a < b < |log| ==> log[a].key != log[b].key }

  /** The native rules that the logged blocks may have left. */
  function Rules(log: seq<Block>): set<ActionId> { set b | 0 <= b < |log| :: log[b].attempt.id }

  predicate Good(d: Disk) {
    && CasesOk(d) && Once(d.log) && d.device.native <= Rules(d.log)
    && forall b :: 0 <= b < |d.log| ==> Justified(d.log[b]) && Closed(d, d.log[b].key)
  }

  /** How one case may change: never back to waiting, and never to a lesser severity. */
  predicate Evolves(c: Case, c': Case) {
    (c'.state == Waiting ==> c.state == Waiting) && Rank(c'.severity) <= Rank(c.severity) && c.extensions <= c'.extensions
  }

  /** No case is ever dropped. */
  predicate Persists(d: Disk, d': Disk) { forall k :: k in d.cases ==> k in d'.cases && Evolves(d.cases[k], d'.cases[k]) }

  /** Nor is a block. */
  ghost predicate Grows(d: Disk, d': Disk) { Persists(d, d') && d.log <= d'.log }

  // ---- what one commit of an operation may do ---------------------------------------------

  /** The block is what the case, the configuration and the row of its event gave as its turn began. */
  ghost predicate Current(d: Disk, p: Policy, scope: Option<Scope>, op: Op, b: Block) {
    && op.Expiring? && b.key == op.key && b.attempt == op.attempt
    && b.policy == p && b.scope == scope && b.halted == d.stopped
    && b.key in d.cases
    && var c := d.cases[b.key];
       && c.state == Waiting
       && b.event == c.event && c.deadline == Some(b.deadline) && c.brief == Some(b.brief)
  }

  ghost predicate Unlogged(d: Disk, d': Disk) { d'.log == d.log && d'.device.native <= d.device.native }

  ghost predicate Logged(d: Disk, d': Disk, b: Block) {
    d'.log == d.log + [b] && d'.device.native <= d.device.native + {b.attempt.id} && Closed(d', b.key)
  }

  /** A native rule appears only with its block in the log, and the block only as the turn of its case allows. */
  ghost predicate Accounted(d: Disk, p: Policy, scope: Option<Scope>, op: Op, d': Disk) {
    || Unlogged(d, d')
    || (&& |d'.log| == |d.log| + 1
        && var b := d'.log[|d.log|]; Current(d, p, scope, op, b) && Justified(b) && Logged(d, d', b))
  }

  /** The time an operation reads, or the last one read. */
  function Time(d: Disk, op: Op): int {
    match op
    case Observing(_, _, now) => now
    case Expiring(_, a) => a.now
    case Commanding(_, _, now) => now
    case _ => d.clock
  }

  /** Only state, brief, flags, event and action may differ. */
  predicate SameTerms(c: Case, c': Case) {
    && (c'.state == Waiting ==> c.state == Waiting)
    && c'.key == c.key && c'.severity == c.severity && c'.deadline == c.deadline
    && c'.acknowledged == c.acknowledged && c'.base == c.base && c'.extensions == c.extensions
  }

  /** Every case is still there, on the same terms. */
  predicate Still(d: Disk, d': Disk, now: int) {
    && d'.cases.Keys == d.cases.Keys && (forall k :: k in d.cases ==> SameTerms(d.cases[k], d'.cases[k]))
    && (d'.clock == d.clock || d'.clock == now)
  }

  predicate Raises(p: Policy, now: int, c: Case, c': Case) {
    && Rank(c'.severity) < Rank(c.severity) && Window(p, c'.severity).Some?
    && c' == Raised(p, c, c'.event, c'.severity, now)
  }

  predicate Extends(p: Policy, now: int, c: Case, c': Case) { !c.acknowledged && c' == Extended(p, c, now) }

  /** All that ever becomes of a case. */
  predicate Revised(p: Policy, now: int, c: Case, c': Case) { SameTerms(c, c') || Raises(p, now, c, c') || Extends(p, now, c, c') }

  predicate Opens(p: Policy, now: int, key: Key, c: Case) { c == Opened(p, key, c.event, c.severity, now) }

  predicate Moves(d: Disk, p: Policy, now: int, d': Disk) {
    && d.cases.Keys <= d'.cases.Keys && (d'.clock == now || Still(d, d', now))
    && forall k :: k in d'.cases ==>
         if k in d.cases then Revised(p, now, d.cases[k], d'.cases[k]) else Opens(p, now, k, d'.cases[k])
  }

  /** The operations that may open a case, raise it or move its deadline. */
  predicate Moving(op: Op) { op.Observing? || (op.Commanding? && (op.cmd.Acknowledge? || op.cmd.Defer?)) }

  lemma StillTransitive(a: Disk, b: Disk, c: Disk, now: int)
    requires Still(a, b, now) && Still(b, c, now)
    ensures Still(a, c, now)
  {
    forall k | k in a.cases ensures SameTerms(a.cases[k], c.cases[k]) { assert SameTerms(a.cases[k], b.cases[k]); }
  }

  lemma ResultStill(d: Disk, key: Key, level: Severity, brief: Option<E.Brief>, followUp: bool, k: nat)
    requires k < |ResultTrace(d, key, level, brief, followUp)|
    ensures var d' := ResultTrace(d, key, level, brief, followUp)[k]; Still(d, d', d.clock) && Unlogged(d, d')
  {}

  lemma CommandStill(d: Disk, p: Policy, key: Key, cmd: Command, now: int, k: nat)
    requires (cmd.Revert? || cmd.Reject?) && k < |ControlOutcome(d, p, key, cmd, now).trace|
    ensures var d' := ControlOutcome(d, p, key, cmd, now).trace[k]; Still(d, d', now) && Unlogged(d, d')
  {}

  lemma RestartStill(d: Disk, order: seq<Key>, k: nat)
    requires k < |RestartTrace(d, order)|
    ensures var d' := RestartTrace(d, order)[k]; Still(d, d', d.clock) && Unlogged(d, d')
  {
    var inv := (s: Disk) => Still(d, s, d.clock) && Unlogged(d, s);
    forall i: nat, s: Disk | i < |order| && inv(s) ensures AllHold(Interruptions(order)(i, s), inv) {
      var t := Interrupted(s, order[i]);
      if t != [] { StillTransitive(d, s, t[0], d.clock); }
    }
    TurnsKeep(d, Interruptions(order), |order|, inv);
  }

  /** A commit of the approval: the block is in the log before its rule can be in the native table. */
  lemma LiftAccounted(d: Disk, started: Disk, b: Block, k: nat)
    requires started.log == d.log && started.device == d.device && Closed(started, b.key)
    requires k < |Lift(started, ApproveTrace(d.device, b.scope, true, Approval(b), b.attempt.native), b)|
    ensures var d' := Lift(started, ApproveTrace(d.device, b.scope, true, Approval(b), b.attempt.native), b)[k];
            d'.cases == started.cases && d'.clock == started.clock && (Unlogged(d, d') || Logged(d, d', b))
  {
    P.ApprovalRules(d.device, b.scope, Approval(b), b.attempt.native, k);
  }

  lemma CaseStill(d: Disk, d': Disk, key: Key, c': Case)
    requires key in d.cases && d'.cases == d.cases[key := c'] && SameTerms(d.cases[key], c')
    ensures Still(d, d', d'.clock)
  {}

  /** The commits of an execution: the first, those of the approval, and the closing record. */
  lemma ExecuteParts(d: Disk, b: Block, started: Disk, run: seq<Disk>, k: nat)
    requires b.key in d.cases && k < |ExecuteTrace(d, b)|
    requires started == d.(clock := b.attempt.now, cases := d.cases[b.key := d.cases[b.key].(state := Executing)])
    requires run == Lift(started, ApproveTrace(d.device, b.scope, true, Approval(b), b.attempt.native), b)
    ensures var d', last := ExecuteTrace(d, b)[k], After(started, run);
            if k == 0 then d' == started
            else if k <= |run| then d' == run[k - 1]
            else d' == last.(cases := d'.cases) && b.key in d'.cases && d'.cases == last.cases[b.key := d'.cases[b.key]]
                 && SameTerms(d.cases[b.key], d'.cases[b.key]) && d'.cases[b.key].state != Waiting
  {}

  /** The closing record goes on what the approval has left. */
  lemma ClosingAccounted(d: Disk, before: Disk, d': Disk, b: Block)
    requires Unlogged(d, before) || Logged(d, before, b)
    requires d' == before.(cases := d'.cases) && Closed(d', b.key)
    ensures Unlogged(d, d') || Logged(d, d', b)
  {}

  lemma ExecuteStill(d: Disk, b: Block, started: Disk, run: seq<Disk>, k: nat)
    requires b.key in d.cases && k < |ExecuteTrace(d, b)|
    requires started == d.(clock := b.attempt.now, cases := d.cases[b.key := d.cases[b.key].(state := Executing)])
    requires run == Lift(started, ApproveTrace(d.device, b.scope, true, Approval(b), b.attempt.native), b)
    ensures Still(d, ExecuteTrace(d, b)[k], b.attempt.now)
  {
    var d' := ExecuteTrace(d, b)[k];
    ExecuteParts(d, b, started, run, k);
    CaseStill(d, d', b.key, d'.cases[b.key]);
  }

  /** The block is issued with its case already out of the waiting state. */
  lemma ExecuteAccounted(d: Disk, b: Block, k: nat)
    requires b.key in d.cases && k < |ExecuteTrace(d, b)|
    ensures var d' := ExecuteTrace(d, b)[k]; Still(d, d', b.attempt.now) && (Unlogged(d, d') || Logged(d, d', b))
  {
    var started := d.(clock := b.attempt.now, cases := d.cases[b.key := d.cases[b.key].(state := Executing)]);
    var run := Lift(started, ApproveTrace(d.device, b.scope, true, Approval(b), b.attempt.native), b);
    ExecuteStill(d, b, started, run, k);
    ExecuteParts(d, b, started, run, k);
    var i := if k <= |run| then k else |run|;
    if i > 0 { LiftAccounted(d, started, b, i - 1); }
    if k > |run| { ClosingAccounted(d, After(started, run), ExecuteTrace(d, b)[k], b); }
  }

  /** The block that a turn issues, if it does. */
  function Issue(d: Disk, p: Policy, scope: Option<Scope>, key: Key, a: Attempt): (r: Option<Block>)
    ensures r.Some? ==> Current(d, p, scope, Expiring(key, a), r.value) && MayBlock(r.value)
    ensures r.Some? ==> Reread(a.telemetry, r.value.event) == Some(r.value.reading) && a.now >= r.value.deadline
  {
    if key !in d.cases then None
    else
      var c := d.cases[key];
      if c.state != Waiting || c.deadline.None? || a.now < c.deadline.value || c.brief.None? then None
      else
        match Reread(a.telemetry, c.event)
        case None => None
        case Some(x) =>
          var b := Block(key, c.event, c.deadline.value, c.brief.value, d.stopped, p, scope, x, a);
          if MayBlock(b) then Some(b) else None
  }

  lemma IssueIsJustified(d: Disk, p: Policy, scope: Option<Scope>, key: Key, a: Attempt)
    requires Issue(d, p, scope, key, a).Some?
    ensures Justified(Issue(d, p, scope, key, a).value)
  {}

  lemma IssueIsExecuted(d: Disk, p: Policy, scope: Option<Scope>, key: Key, a: Attempt)
    requires Issue(d, p, scope, key, a).Some?
    ensures DeadlineTrace(d, p, scope, key, a) == ExecuteTrace(d, Issue(d, p, scope, key, a).value)
  {}

  /** A turn that issues no block. */
  lemma TurnStill(d: Disk, p: Policy, scope: Option<Scope>, key: Key, a: Attempt, k: nat)
    requires k < |DeadlineTrace(d, p, scope, key, a)| && Issue(d, p, scope, key, a).None?
    ensures var d' := DeadlineTrace(d, p, scope, key, a)[k]; Still(d, d', a.now) && Unlogged(d, d')
  {
    var d' := DeadlineTrace(d, p, scope, key, a)[k];
    CaseStill(d, d', key, d'.cases[key]);
  }

  lemma DeadlineAccounted(d: Disk, p: Policy, scope: Option<Scope>, key: Key, a: Attempt, k: nat)
    requires k < |DeadlineTrace(d, p, scope, key, a)|
    ensures var d' := DeadlineTrace(d, p, scope, key, a)[k];
            Still(d, d', a.now) && Accounted(d, p, scope, Expiring(key, a), d')
  {
    var b := Issue(d, p, scope, key, a);
    if b.Some? {
      IssueIsJustified(d, p, scope, key, a);
      IssueIsExecuted(d, p, scope, key, a);
      ExecuteAccounted(d, b.value, k);
    } else {
      TurnStill(d, p, scope, key, a, k);
    }
  }

  lemma StillAccounted(d: Disk, p: Policy, scope: Option<Scope>, op: Op, k: nat)
    requires !Moving(op) && k < |OpTrace(d, p, scope, op)|
    ensures var d' := OpTrace(d, p, scope, op)[k]; Still(d, d', Time(d, op)) && Accounted(d, p, scope, op, d')
  {
    match op {
      case Resulting(key, level, brief, followUp) => ResultStill(d, key, level, brief, followUp, k);
      case Expiring(key, a) => DeadlineAccounted(d, p, scope, key, a, k);
      case Commanding(key, cmd, now) => CommandStill(d, p, key, cmd, now, k);
      case Halting(stopped) =>
      case Reconciling(turn) => P.ReconcileNeverBlocks(d.device, scope, turn);
      case Restarting(order) => RestartStill(d, order, k);
    }
  }

  lemma MovingMoves(d: Disk, p: Policy, scope: Option<Scope>, op: Op, k: nat)
    requires Moving(op) && k < |OpTrace(d, p, scope, op)|
    ensures var d' := OpTrace(d, p, scope, op)[k]; Moves(d, p, Time(d, op), d') && Unlogged(d, d')
  {
    var d' := OpTrace(d, p, scope, op)[k];
    assert d'.cases == d.cases[op.key := d'.cases[op.key]];
  }

  /** A cut leaves the start or the state after one of the commits. */
  lemma CutIsACommit(d: Disk, t: seq<Disk>, cut: nat) returns (k: nat)
    ensures Cut(d, t, cut) == d || (k < |t| && Cut(d, t, cut) == t[k])
  {
    k := if 0 < cut < |t| then cut - 1 else if t != [] then |t| - 1 else 0;
  }

  /** What one step, whole or cut, does to the cases, the native table and the log. */
  lemma StepMoves(d: Disk, s: Step)
    ensures Moves(d, s.policy, Time(d, s.op), Next(d, s)) && Accounted(d, s.policy, s.scope, s.op, Next(d, s))
  {
    var k := CutIsACommit(d, Trace(d, s), s.cut);
    if Next(d, s) != d {
      if Moving(s.op) { MovingMoves(d, s.policy, s.scope, s.op, k); } else { StillAccounted(d, s.policy, s.scope, s.op, k); }
    }
  }

  // ---- whole runs ---------------------------------------------------------------------------

  lemma RevisedOk(p: Policy, now: int, key: Key, c: Case, c': Case)
    requires CaseOk(key, c) && Revised(p, now, c, c')
    ensures CaseOk(key, c') && Evolves(c, c')
  {}

  lemma CasesStayOk(d: Disk, p: Policy, now: int, d': Disk)
    requires CasesOk(d) && Moves(d, p, now, d')
    ensures CasesOk(d') && Persists(d, d')
  {
    forall k | k in d'.cases ensures CaseOk(k, d'.cases[k]) && (k in d.cases ==> Evolves(d.cases[k], d'.cases[k])) {
      if k in d.cases { RevisedOk(p, now, k, d.cases[k], d'.cases[k]); }
    }
  }

  lemma QuietGood(d: Disk, d': Disk)
    requires Good(d) && CasesOk(d') && Persists(d, d') && Unlogged(d, d')
    ensures Good(d')
  {
    forall b | 0 <= b < |d'.log| ensures Justified(d'.log[b]) && Closed(d', d'.log[b].key) {
      assert Closed(d, d.log[b].key);
    }
  }

  lemma OneMoreRule(log: seq<Block>, b: Block)
    ensures Rules(log + [b]) == Rules(log) + {b.attempt.id}
  {
    assert forall i :: 0 <= i < |log| ==> (log + [b])[i] == log[i];
    assert (log + [b])[|log|] == b;
  }

  lemma OneMoreBlock(log: seq<Block>, b: Block)
    requires Once(log) && forall i :: 0 <= i < |log| ==> log[i].key != b.key
    ensures Once(log + [b])
  {}

  lemma LoggedGood(d: Disk, d': Disk, b: Block)
    requires Good(d) && CasesOk(d') && Persists(d, d') && Logged(d, d', b) && Justified(b) && !Closed(d, b.key)
    ensures Good(d')
  {
    OneMoreRule(d.log, b);
    OneMoreBlock(d.log, b);
    forall i | 0 <= i < |d'.log| ensures Justified(d'.log[i]) && Closed(d', d'.log[i].key) {
      if i < |d.log| { assert Closed(d, d.log[i].key); }
    }
  }

  lemma StepGood(d: Disk, s: Step)
    requires Good(d)
    ensures Good(Next(d, s)) && Grows(d, Next(d, s))
  {
    var d' := Next(d, s);
    StepMoves(d, s);
    CasesStayOk(d, s.policy, Time(d, s.op), d');
    if Unlogged(d, d') { QuietGood(d, d'); } else { LoggedGood(d, d', d'.log[|d.log|]); }
  }

  lemma GrowsTransitive(a: Disk, b: Disk, c: Disk)
    requires Grows(a, b) && Grows(b, c)
    ensures Grows(a, c)
  {
    forall k | k in a.cases ensures k in c.cases && Evolves(a.cases[k], c.cases[k]) { assert Evolves(a.cases[k], b.cases[k]); }
  }

  lemma {:induction false} RunGood(d: Disk, steps: seq<Step>)
    requires Good(d)
    ensures Good(Run(d, steps)) && Grows(d, Run(d, steps))
    decreases |steps|
  {
    if steps != [] {
      var next := Next(d, steps[0]);
      StepGood(d, steps[0]);
      RunGood(next, steps[1..]);
      GrowsTransitive(d, next, Run(next, steps[1..]));
    }
  }

  /**
   * From an empty table, over every run: one block at most per identity, each justified; a native
   * rule only with its block; four extensions at most; and whatever happens later no case returns
   * to waiting or to a lesser severity, and no block is forgotten.
   */
  lemma AtMostOneBlockPerKey(start: int, steps: seq<Step>, later: seq<Step>)
    ensures var d := Run(Empty(start), steps);
            && (forall a, b :: 0 <= a < b < |d.log| ==> d.log[a].key != d.log[b].key)
            && (forall b :: 0 <= b < |d.log| ==> Justified(d.log[b]) && Closed(d, d.log[b].key))
            && (forall id :: id in d.device.native ==> exists b :: 0 <= b < |d.log| && d.log[b].attempt.id == id)
            && (forall k :: k in d.cases ==> CaseOk(k, d.cases[k]) && d.cases[k].extensions <= 4)
            && Grows(d, Run(d, later))
  {
    var d := Run(Empty(start), steps);
    RunGood(Empty(start), steps);
    RunGood(d, later);
    forall k | k in d.cases ensures d.cases[k].extensions <= 4 { assert CaseOk(k, d.cases[k]); }
  }

  /**
   * From any state, whole or cut: a native rule that is new after a step is the attempt's own, in the
   * turn of a case that was waiting and due, and that block, made on the row of the case's event, is
   * the one entry the log has gained. Nothing else adds to the log.
   */
  lemma EveryRuleIsLogged(d: Disk, s: Step)
    ensures var d' := Next(d, s);
            || (d'.log == d.log && d'.device.native <= d.device.native)
            || (&& |d'.log| == |d.log| + 1
                && var b := d'.log[|d.log|];
                   && d'.log == d.log + [b] && d'.device.native <= d.device.native + {b.attempt.id}
                   && Current(d, s.policy, s.scope, s.op, b) && Justified(b)
                   && b.reading.row.id == d.cases[b.key].event)
  {
    StepMoves(d, s);
  }

  /** Over every run: the rule of an automatic block follows from fresh local facts drawn only from
      the row of its event and the rows its brief cites. */
  lemma EveryBlockIsSupported(start: int, steps: seq<Step>, b: nat)
    requires b < |Run(Empty(start), steps).log|
    ensures var x := Run(Empty(start), steps).log[b];
            var row, a := x.reading.row, x.attempt;
            var facts := E.Facts(row, E.Cited(a.related, x.brief.receipt.evidence), a.now);
            && row.id == x.event
            && x.brief.receipt.rule.Some?
            && x.brief.target.Some? && S.Founded(x.brief.receipt.rule.value, facts, row, x.brief.target, a.host)
            && forall f :: f in facts ==> S.Rests(f, row, a.related, x.brief, a.now)
  {
    RunGood(Empty(start), steps);
    var x := Run(Empty(start), steps).log[b];
    assert Justified(x);
    S.AuthorizedBlockIsSupported(x.brief, x.reading.row, x.attempt.related, x.brief.target, x.attempt.now, x.attempt.host);
  }
}
