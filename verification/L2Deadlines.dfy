/** How far the deadlines of second-level cases move, over every run. */
module L2Deadlines {
  import opened Wrappers
  import opened Containment
  import opened Protection
  import opened L2Workflow
  import opened L2Runs

  // ---- the latest a deadline can be ---------------------------------------------------

  /** No window of `p` is longer than that of `top`. */
  predicate Within(p: Policy, top: Policy) { p.critical <= top.critical && p.high <= top.high && p.medium <= top.medium }

  /** At most one window after the base, or two once acknowledged. */
  predicate BoundedCase(top: Policy, c: Case) {
    var w := Window(top, c.severity);
    c.deadline.Some? && w.Some? ==> c.deadline.value <= c.base + (if c.acknowledged then 2 else 1) * w.value
  }

  predicate Bounded(top: Policy, d: Disk) { forall k :: k in d.cases ==> BoundedCase(top, d.cases[k]) }

  lemma RevisedBounded(top: Policy, p: Policy, now: int, c: Case, c': Case)
    requires Within(p, top) && BoundedCase(top, c) && Revised(p, now, c, c')
    ensures BoundedCase(top, c')
  {}

  lemma StepBounded(top: Policy, d: Disk, s: Step)
    requires Within(s.policy, top) && Bounded(top, d)
    ensures Bounded(top, Next(d, s))
  {
    var d', now := Next(d, s), Time(d, s.op);
    StepMoves(d, s);
    forall k | k in d'.cases ensures BoundedCase(top, d'.cases[k]) {
      if k in d.cases { RevisedBounded(top, s.policy, now, d.cases[k], d'.cases[k]); }
    }
  }

  lemma {:induction false} RunBounded(top: Policy, d: Disk, steps: seq<Step>)
    requires Bounded(top, d) && forall i :: 0 <= i < |steps| ==> Within(steps[i].policy, top)
    ensures Bounded(top, Run(d, steps))
    decreases |steps|
  {
    if steps != [] {
      StepBounded(top, d, steps[0]);
      RunBounded(top, Next(d, steps[0]), steps[1..]);
    }
  }

  /**
   * Over every run, however the clock moves: with windows that never exceed those of `top`, each
   * deadline is at most one window of `top` after its case was opened or last rose, or two once
   * acknowledged.
   */
  lemma DeadlinesStayBounded(top: Policy, start: int, steps: seq<Step>, key: Key)
    requires forall i :: 0 <= i < |steps| ==>
               steps[i].policy.critical <= top.critical && steps[i].policy.high <= top.high && steps[i].policy.medium <= top.medium
    requires key in Run(Empty(start), steps).cases && Run(Empty(start), steps).cases[key].deadline.Some?
    ensures var c := Run(Empty(start), steps).cases[key];
            var windows := if c.acknowledged then 2 else 1;
            match c.severity
            case Critical => c.deadline.value - c.base <= windows * top.critical
            case High => c.deadline.value - c.base <= windows * top.high
            case Medium => c.deadline.value - c.base <= windows * top.medium
            case Low => false
  {
    RunBounded(top, Empty(start), steps);
    RunGood(Empty(start), steps);
    var d := Run(Empty(start), steps);
    assert BoundedCase(top, d.cases[key]) && CaseOk(key, d.cases[key]);
  }

  /** So with the windows that a policy may set, at most one, five or thirty minutes after it was opened or last rose,
      or twice that once acknowledged. */
  lemma DeadlinesInMinutes(start: int, steps: seq<Step>, key: Key)
    requires forall i :: 0 <= i < |steps| ==>
               steps[i].policy.critical <= 60 && steps[i].policy.high <= 300 && steps[i].policy.medium <= 1800
    requires key in Run(Empty(start), steps).cases && Run(Empty(start), steps).cases[key].deadline.Some?
    ensures var c := Run(Empty(start), steps).cases[key];
            c.deadline.value - c.base <= (if c.acknowledged then 2 else 1)
                                         * (if c.severity.Critical? then 60 else if c.severity.High? then 300 else 1800)
  {
    DeadlinesStayBounded(DEFAULT, start, steps, key);
  }

  const DEFAULT := Policy(false, {}, 60, 300, 1800)

  // ---- a rise never gives more time ------------------------------------------------------

  /** A rise in one step never moves the deadline later. */
  predicate Shortens(c: Case, c': Case) {
    Rank(c'.severity) < Rank(c.severity) && c.deadline.Some? ==> c'.deadline.Some? && c'.deadline.value <= c.deadline.value
  }

  predicate Rising(d: Disk, d': Disk) { forall k :: k in d.cases ==> k in d'.cases && Shortens(d.cases[k], d'.cases[k]) }

  predicate Dated(c: Case) { c.deadline.Some? ==> c.deadline.value > 0 }

  predicate AllDated(d: Disk) { d.clock > 0 && forall k :: k in d.cases ==> Dated(d.cases[k]) }

  /** A rise moves the deadline to the end of the new window, unless it is already due sooner: the
      only deadline it can move later is 0, which reads as none. */
  lemma RiseShortens(p: Policy, c: Case, event: EventId, level: Severity, now: int)
    requires Window(p, level).Some?
    ensures var c', due := Raised(p, c, event, level, now), now + Window(p, level).value;
            && c'.severity == level && c'.base == now && !c'.acknowledged && c'.brief.None?
            && c'.deadline.Some? && c'.deadline.value <= due
            && (c'.deadline == Some(due) || c'.deadline == c.deadline)
            && (c.deadline.Some? ==> (c'.deadline.value <= c.deadline.value <==> c.deadline.value != 0 || due <= 0))
  {}

  lemma RevisedDated(p: Policy, now: int, c: Case, c': Case)
    requires now > 0 && Dated(c) && Revised(p, now, c, c')
    ensures Dated(c') && Shortens(c, c')
  {}

  lemma StepDated(d: Disk, s: Step)
    requires AllDated(d) && Time(d, s.op) > 0
    ensures AllDated(Next(d, s)) && Rising(d, Next(d, s))
  {
    var d', now := Next(d, s), Time(d, s.op);
    StepMoves(d, s);
    forall k | k in d'.cases ensures Dated(d'.cases[k]) && (k in d.cases ==> Shortens(d.cases[k], d'.cases[k])) {
      if k in d.cases { RevisedDated(s.policy, now, d.cases[k], d'.cases[k]); }
    }
  }

  /** Every time that is read is past the epoch. */
  predicate Reads(op: Op) {
    match op
    case Observing(_, _, now) => now > 0
    case Expiring(_, a) => a.now > 0
    case Commanding(_, _, now) => now > 0
    case _ => true
  }

  lemma {:induction false} RunDated(d: Disk, steps: seq<Step>)
    requires AllDated(d) && forall i :: 0 <= i < |steps| ==> Reads(steps[i].op)
    ensures AllDated(Run(d, steps))
    decreases |steps|
  {
    if steps != [] {
      StepDated(d, steps[0]);
      RunDated(Next(d, steps[0]), steps[1..]);
    }
  }

  /** Wherever a run has come, forwards or back in time and through any policies, no step that raises a
      severity, whole or cut, moves that deadline later. */
  lemma RisesNeverPostpone(start: int, steps: seq<Step>, s: Step)
    requires start > 0 && Reads(s.op) && forall i :: 0 <= i < |steps| ==> Reads(steps[i].op)
    ensures var d := Run(Empty(start), steps); Rising(d, Next(d, s))
  {
    RunDated(Empty(start), steps);
    StepDated(Run(Empty(start), steps), s);
  }

  // ---- nothing but a rise takes time away ---------------------------------------------------

  /** One window after a base that is past, and two once acknowledged. */
  predicate TermsOk(p: Policy, c: Case, clock: int) {
    BoundedCase(p, c) && c.base <= clock && (c.deadline.Some? ==> Window(p, c.severity).Some?)
  }

  predicate Timed(p: Policy, d: Disk) { forall k :: k in d.cases ==> TermsOk(p, d.cases[k], d.clock) }

  /** At one severity the deadline only moves later, and not at all once acknowledged. */
  predicate Holds(c: Case, c': Case) {
    && Rank(c'.severity) <= Rank(c.severity)
    && (c'.severity == c.severity ==>
          && c'.base == c.base && (c.acknowledged ==> c'.acknowledged && c'.deadline == c.deadline)
          && (c.deadline.Some? ==> c'.deadline.Some? && c.deadline.value <= c'.deadline.value))
  }

  predicate Advances(d: Disk, d': Disk) {
    && d.clock <= d'.clock
    && forall k :: k in d.cases ==> k in d'.cases && Holds(d.cases[k], d'.cases[k])
  }

  /** An acknowledgement moves the deadline at most one window later, and not earlier exactly when the
      old deadline is within one window of the time then read. */
  lemma AckExtends(p: Policy, c: Case, now: int)
    requires !c.acknowledged
    ensures var c', w := Extended(p, c, now), Window(p, c.severity);
            && c'.severity == c.severity && c'.acknowledged && (c'.deadline.Some? <==> c.deadline.Some?)
            && (w.Some? && c.deadline.Some? ==>
                  && c'.deadline.value <= c.deadline.value + w.value
                  && (c.deadline.value <= c'.deadline.value <==> c.deadline.value <= now + w.value))
            && (TermsOk(p, c, now) ==> Holds(c, c') && TermsOk(p, c', now))
  {}

  /** With a clock that steps back between the two, an acknowledgement brings the deadline forward. */
  lemma AckAfterStepBack(key: Key, event: EventId, scope: Option<Scope>)
    ensures var seen := Step(DEFAULT, scope, Observing(key, Sighting(event, false, 7.0, false, false), 1000), 1);
            var acked := Step(DEFAULT, scope, Commanding(key, Acknowledge, 500), 1);
            var d := Next(Empty(900), seen);
            && key in d.cases && d.cases[key].deadline == Some(1300)
            && key in Next(d, acked).cases && Next(d, acked).cases[key].deadline == Some(800)
  {
    var seen := Step(DEFAULT, scope, Observing(key, Sighting(event, false, 7.0, false, false), 1000), 1);
    var d := Next(Empty(900), seen);
    assert d.cases[key] == Opened(DEFAULT, key, event, Level(seen.op.sighting), 1000);
    assert d.cases[key].severity.High?;
  }

  lemma RevisedHolds(p: Policy, now: int, c: Case, c': Case)
    requires TermsOk(p, c, now) && Revised(p, now, c, c')
    ensures TermsOk(p, c', now) && Holds(c, c')
  {}

  lemma StepAdvances(p: Policy, d: Disk, s: Step)
    requires s.policy == p && d.clock <= Time(d, s.op) && Timed(p, d)
    ensures Timed(p, Next(d, s)) && Advances(d, Next(d, s))
  {
    var d', now := Next(d, s), Time(d, s.op);
    StepMoves(d, s);
    forall k | k in d'.cases ensures TermsOk(p, d'.cases[k], d'.clock) && (k in d.cases ==> Holds(d.cases[k], d'.cases[k])) {
      if k in d.cases { RevisedHolds(p, now, d.cases[k], d'.cases[k]); }
    }
  }

  /** No step reads the clock before the time last read. */
  predicate Monotone(d: Disk, steps: seq<Step>)
    decreases |steps|
  {
    steps != [] ==> d.clock <= Time(d, steps[0].op) && Monotone(Next(d, steps[0]), steps[1..])
  }

  lemma AdvancesTransitive(a: Disk, b: Disk, c: Disk)
    requires Advances(a, b) && Advances(b, c)
    ensures Advances(a, c)
  {
    forall k | k in a.cases ensures k in c.cases && Holds(a.cases[k], c.cases[k]) { assert Holds(a.cases[k], b.cases[k]); }
  }

  lemma {:induction false} RunAdvances(p: Policy, d: Disk, steps: seq<Step>)
    requires Timed(p, d) && Monotone(d, steps) && forall i :: 0 <= i < |steps| ==> steps[i].policy == p
    ensures Timed(p, Run(d, steps)) && Advances(d, Run(d, steps))
    decreases |steps|
  {
    if steps != [] {
      var next := Next(d, steps[0]);
      StepAdvances(p, d, steps[0]);
      RunAdvances(p, next, steps[1..]);
      AdvancesTransitive(d, next, Run(next, steps[1..]));
    }
  }

  /**
   * Under one policy and a clock that never steps back: from wherever a run has come, at one
   * severity a deadline only ever moves later, by its one acknowledgement, and within its bound.
   */
  lemma OnlyRisesShorten(p: Policy, start: int, steps: seq<Step>, later: seq<Step>)
    requires forall i :: 0 <= i < |steps| ==> steps[i].policy == p
    requires forall i :: 0 <= i < |later| ==> later[i].policy == p
    requires Monotone(Empty(start), steps) && Monotone(Run(Empty(start), steps), later)
    ensures var d := Run(Empty(start), steps); Timed(p, d) && Advances(d, Run(d, later)) && Timed(p, Run(d, later))
  {
    RunAdvances(p, Empty(start), steps);
    RunAdvances(p, Run(Empty(start), steps), later);
  }
}
