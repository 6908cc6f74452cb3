/** What holds of first-level responses over every run of commands, scheduler passes, manual
    actions, crashes and restarts. */
module ResponseRuns {
  import opened Wrappers
  import opened Containment
  import opened Protection
  import opened ResponseWorkflow
  import P = ProtectionRuns

  // ---- the invariants ------------------------------------------------------------

  /** Creation plus the window of the severity, or plus twice the window after the one deferral. */
  predicate DeadlineOk(c: Case) {
    match Window(c.severity)
    case None => c.deadline == None
    case Some(w) => c.deadline == Some(c.created + if c.deferred then 2 * w else w)
  }

  predicate CaseOk(e: EventId, c: Case) {
    c.event == e && DeadlineOk(c) && (c.state == Waiting && c.mode == Automatic ==> c.plan.Some?)
  }

  predicate SharedIdentity(a: Case, b: Case) {
    a.plan.Some? && b.plan.Some? && a.plan.value.identity == b.plan.value.identity
  }

  /** The block at `log[b]` belongs to a case that left the waiting state with that plan. */
  predicate BlockOk(d: Disk, b: nat)
    requires b < |d.log|
  {
    d.log[b].Block? ==>
      && d.log[b].event in d.cases
      && d.cases[d.log[b].event].state != Waiting
      && d.cases[d.log[b].event].plan == Some(d.log[b].plan)
  }

  predicate OneBlockPerCase(log: seq<Entry>) {
    forall a, b :: 0 <= a < b < |log| && log[a].Block? && log[b].Block? ==> log[a].event != log[b].event
  }

  predicate Once(d: Disk) {
    && (forall e :: e in d.cases ==> CaseOk(e, d.cases[e]))
    && (forall e, f :: e in d.cases && f in d.cases && e != f ==> !SharedIdentity(d.cases[e], d.cases[f]))
    && (forall b :: 0 <= b < |d.log| ==> BlockOk(d, b))
    && OneBlockPerCase(d.log)
  }

  function StoppedAt(log: seq<Entry>): bool {
    if log == [] then false
    else match log[|log| - 1]
      case Stopped(_) => true
      case Resumed => false
      case _ => StoppedAt(log[..|log| - 1])
  }

  /** A review or reject closes a case; a stop disarms the cases it reaches, and spares none it did not
      find armed. */
  predicate Disarms(x: Entry, e: EventId) { x == Closed(e) || x == Disarmed(e) || (x.Stopped? && e !in x.armed) }

  /** Entry `k` is an accepted schedule of this plan, made before its deadline and not while stopped, on
      an unprotected target; nothing since has closed or disarmed the case. */
  predicate Authorizes(log: seq<Entry>, k: nat, e: EventId, plan: Plan, deadline: int) {
    && k < |log| && log[k].Scheduled? && log[k].event == e && log[k].plan == plan
    && log[k].at < log[k].deadline <= deadline
    && !StoppedAt(log[..k])
    && !Protected(plan.protected, plan.identity.target)
    && forall j :: k < j < |log| ==> !Disarms(log[j], e)
  }

  predicate Standing(log: seq<Entry>, e: EventId, plan: Plan, deadline: int) {
    exists k :: 0 <= k < |log| && Authorizes(log, k, e, plan, deadline)
  }

  /** The block at `log[b]` was due, and an authorization was standing when it was issued. */
  predicate Warranted(log: seq<Entry>, b: nat)
    requires b < |log|
  {
    log[b].Block? ==>
      && log[b].attempt.now >= log[b].deadline && EvidenceHolds(log[b].plan, log[b].attempt)
      && Standing(log[..b], log[b].event, log[b].plan, log[b].deadline)
  }

  predicate ArmedOk(d: Disk, e: EventId)
    requires e in d.cases
  {
    var c := d.cases[e];
    Armed(c) ==> c.plan.Some? && c.deadline.Some? && Standing(d.log, e, c.plan.value, c.deadline.value)
  }

  predicate Authority(d: Disk) {
    && Once(d)
    && (forall b :: 0 <= b < |d.log| ==> Warranted(d.log, b))
    && d.stopped == StoppedAt(d.log)
    && (forall e :: e in d.cases ==> ArmedOk(d, e))
  }

  /** Cases are never deleted, none goes back to waiting, and the history only gets longer. */
  predicate Grows(d: Disk, d': Disk) {
    && (Keyed(d) ==> Keyed(d')) && d.log <= d'.log
    && forall e :: e in d.cases ==> e in d'.cases && (d'.cases[e].state == Waiting ==> d.cases[e].state == Waiting)
  }

  predicate Keyed(d: Disk) { forall e :: e in d.cases ==> d.cases[e].event == e }

  predicate Carries(d: Disk, d': Disk) { Grows(d, d') && (Authority(d) ==> Authority(d')) }

  /** No emergency stop has begun since `d`. */
  predicate Quiet(d: Disk, d': Disk) { forall j :: |d.log| <= j < |d'.log| ==> !d'.log[j].Stopped? }

  predicate Keeps(d: Disk, d': Disk) { Carries(d, d') && Quiet(d, d') }

  predicate AllKept(d: Disk, trace: seq<Disk>) { forall k :: 0 <= k < |trace| ==> Keeps(d, trace[k]) }

  // ---- single commits -------------------------------------------------------------

  /** A change to an existing case that enrolls nothing. */
  predicate Follows(c: Case, c': Case) {
    && c'.event == c.event && c'.severity == c.severity && c'.created == c.created && c'.plan == c.plan
    && (c'.state == Waiting ==> c.state == Waiting)
    && (c'.mode == Automatic ==> c.mode == Automatic)
    && ((c'.deadline == c.deadline && c'.deferred == c.deferred)
        || (!c.deferred && c'.deferred && c'.deadline == Later(c.deadline, Window(c.severity))))
  }

  lemma StandingLater(log: seq<Entry>, e: EventId, plan: Plan, deadline: int, later: int)
    requires Standing(log, e, plan, deadline) && deadline <= later
    ensures Standing(log, e, plan, later)
  {
    var k :| 0 <= k < |log| && Authorizes(log, k, e, plan, deadline);
    assert Authorizes(log, k, e, plan, later);
  }

  lemma TouchKeeps(d: Disk, e: EventId, c': Case)
    requires e in d.cases && Follows(d.cases[e], c')
    ensures Keeps(d, d.(cases := d.cases[e := c']))
  {
    var d' := d.(cases := d.cases[e := c']);
    if Once(d) {
      forall f, g | f in d'.cases && g in d'.cases && f != g ensures !SharedIdentity(d'.cases[f], d'.cases[g]) {
        assert !SharedIdentity(d.cases[f], d.cases[g]);
      }
      assert CaseOk(e, d.cases[e]);
      forall b | 0 <= b < |d'.log| ensures BlockOk(d', b) { assert BlockOk(d, b); }
      assert Once(d');
    }
    if Authority(d) {
      assert ArmedOk(d, e);
      if Armed(c') {
        StandingLater(d.log, e, c'.plan.value, d.cases[e].deadline.value, c'.deadline.value);
      }
      forall f | f in d'.cases ensures ArmedOk(d', f) { assert f != e ==> ArmedOk(d, f); }
    }
  }

  lemma OpenKeeps(d: Disk, f: Finding, now: int)
    requires f.event !in d.cases
    ensures Keeps(d, Put(d, NewCase(f, now)))
  {
    var d' := Put(d, NewCase(f, now));
    if Once(d) {
      forall b | 0 <= b < |d'.log| ensures BlockOk(d', b) { assert BlockOk(d, b); }
      assert CaseOk(f.event, NewCase(f, now));
      assert Once(d');
    }
    if Authority(d) {
      forall e | e in d'.cases ensures ArmedOk(d', e) { assert e != f.event ==> ArmedOk(d, e); }
    }
  }

  lemma DeviceKeeps(d: Disk, w: World)
    ensures Keeps(d, d.(device := w))
  {
    var d' := d.(device := w);
    forall b | 0 <= b < |d.log| && BlockOk(d, b) ensures BlockOk(d', b) { }
    forall e | e in d.cases && ArmedOk(d, e) ensures ArmedOk(d', e) { }
    if Once(d) { assert Once(d'); }
  }

  lemma StandingAppend(log: seq<Entry>, x: Entry, e: EventId, plan: Plan, deadline: int)
    requires Standing(log, e, plan, deadline) && !Disarms(x, e)
    ensures Standing(log + [x], e, plan, deadline)
  {
    var k :| 0 <= k < |log| && Authorizes(log, k, e, plan, deadline);
    assert (log + [x])[..k] == log[..k];
    assert Authorizes(log + [x], k, e, plan, deadline);
  }

  lemma WarrantedAppend(log: seq<Entry>, x: Entry)
    requires forall b :: 0 <= b < |log| ==> Warranted(log, b)
    requires x.Block? ==> x.attempt.now >= x.deadline && EvidenceHolds(x.plan, x.attempt) && Standing(log, x.event, x.plan, x.deadline)
    ensures forall b :: 0 <= b < |log| + 1 ==> Warranted(log + [x], b)
  {
    forall b | 0 <= b < |log| + 1 ensures Warranted(log + [x], b) {
      assert (log + [x])[..b] == if b < |log| then log[..b] else log;
      assert b < |log| ==> Warranted(log, b);
    }
  }

  /** Appending what disarms at most a case that is not armed. */
  lemma LogKeeps(d: Disk, x: Entry)
    requires x.Scheduled? || ((x.Closed? || x.Disarmed?) && (x.event in d.cases ==> !Armed(d.cases[x.event])))
    ensures Keeps(d, Logged(d, x))
  {
    var d' := Logged(d, x);
    if Once(d) {
      forall b | 0 <= b < |d'.log| ensures BlockOk(d', b) { assert b < |d.log| ==> BlockOk(d, b); }
      assert Once(d');
    }
    if Authority(d) {
      WarrantedAppend(d.log, x);
      assert (d.log + [x])[..|d.log|] == d.log;
      forall e | e in d'.cases ensures ArmedOk(d', e) {
        assert ArmedOk(d, e);
        if Armed(d.cases[e]) { StandingAppend(d.log, x, e, d.cases[e].plan.value, d.cases[e].deadline.value); }
      }
    }
  }

  lemma KeepsTransitive(a: Disk, b: Disk, c: Disk)
    requires Keeps(a, b) && Keeps(b, c)
    ensures Keeps(a, c)
  {
  }

  lemma CloseKeeps(d: Disk, e: EventId, c': Case)
    requires e in d.cases && d.cases[e].event == e && Follows(d.cases[e], c') && c'.state != Waiting
    ensures Keeps(d, Logged(Put(d, c'), Closed(e)))
  {
    TouchKeeps(d, e, c');
    LogKeeps(Put(d, c'), Closed(e));
    KeepsTransitive(d, Put(d, c'), Logged(Put(d, c'), Closed(e)));
  }

  lemma EnrollKeeps(d: Disk, c: Case, plan: Plan, now: int)
    requires c.event in d.cases && d.cases[c.event] == c
    requires c.state == Waiting && c.deadline.Some? && now < c.deadline.value && !d.stopped
    requires !IdentityTaken(d.cases, c.event, plan.identity) && !Protected(plan.protected, plan.identity.target)
    ensures Keeps(d, Logged(Put(d, c.(mode := Automatic, plan := Some(plan))), Scheduled(c.event, now, c.deadline.value, plan)))
  {
    var x := Scheduled(c.event, now, c.deadline.value, plan);
    var d' := Logged(Put(d, c.(mode := Automatic, plan := Some(plan))), x);
    if Once(d) {
      assert CaseOk(c.event, c);
      forall f, g | f in d'.cases && g in d'.cases && f != g ensures !SharedIdentity(d'.cases[f], d'.cases[g]) {
        assert !SharedIdentity(d.cases[f], d.cases[g]);
      }
      forall b | 0 <= b < |d'.log| ensures BlockOk(d', b) { assert b < |d.log| ==> BlockOk(d, b); }
      assert Once(d');
    }
    if Authority(d) {
      WarrantedAppend(d.log, x);
      assert (d.log + [x])[..|d.log|] == d.log;
      assert Authorizes(d'.log, |d.log|, c.event, plan, c.deadline.value);
      forall e | e in d'.cases ensures ArmedOk(d', e) {
        if e != c.event {
          assert ArmedOk(d, e);
          if Armed(d.cases[e]) { StandingAppend(d.log, x, e, d.cases[e].plan.value, d.cases[e].deadline.value); }
        }
      }
    }
  }

  /** Issuing the block of a case that has just left the waiting state. */
  lemma IssueKeeps(d: Disk, c: Case, plan: Plan, deadline: int, a: Attempt)
    requires c.event in d.cases && d.cases[c.event] == c && Armed(c)
    requires c.plan == Some(plan) && c.deadline == Some(deadline) && a.now >= deadline && EvidenceHolds(plan, a)
    ensures Keeps(d, Logged(Put(d, c.(state := Executing)), Block(c.event, deadline, plan, a)))
  {
    TouchKeeps(d, c.event, c.(state := Executing));
    if Authority(d) {
      IssueOnce(d, c, plan, deadline, a);
      IssueWarranted(d, c, plan, deadline, a);
    }
  }

  lemma IssueOnce(d: Disk, c: Case, plan: Plan, deadline: int, a: Attempt)
    requires Once(d) && c.event in d.cases && d.cases[c.event] == c && Armed(c) && c.plan == Some(plan)
    ensures Once(Logged(Put(d, c.(state := Executing)), Block(c.event, deadline, plan, a)))
  {
    var d' := Logged(Put(d, c.(state := Executing)), Block(c.event, deadline, plan, a));
    assert CaseOk(c.event, c);
    forall f, g | f in d'.cases && g in d'.cases && f != g ensures !SharedIdentity(d'.cases[f], d'.cases[g]) {
      assert !SharedIdentity(d.cases[f], d.cases[g]);
    }
    forall b | 0 <= b < |d.log| && d.log[b].Block? ensures d.log[b].event != c.event { assert BlockOk(d, b); }
    forall b | 0 <= b < |d'.log| ensures BlockOk(d', b) { assert b < |d.log| ==> BlockOk(d, b); }
  }

  lemma IssueWarranted(d: Disk, c: Case, plan: Plan, deadline: int, a: Attempt)
    requires Authority(d) && c.event in d.cases && d.cases[c.event] == c && Armed(c)
    requires c.plan == Some(plan) && c.deadline == Some(deadline) && a.now >= deadline && EvidenceHolds(plan, a)
    ensures var d' := Logged(Put(d, c.(state := Executing)), Block(c.event, deadline, plan, a));
            && (forall b :: 0 <= b < |d'.log| ==> Warranted(d'.log, b))
            && d'.stopped == StoppedAt(d'.log)
            && (forall e :: e in d'.cases ==> ArmedOk(d', e))
  {
    var x := Block(c.event, deadline, plan, a);
    var d' := Logged(Put(d, c.(state := Executing)), x);
    assert ArmedOk(d, c.event);
    WarrantedAppend(d.log, x);
    assert (d.log + [x])[..|d.log|] == d.log;
    forall e | e in d'.cases ensures ArmedOk(d', e) {
      if e != c.event {
        assert ArmedOk(d, e);
        if Armed(d.cases[e]) { StandingAppend(d.log, x, e, d.cases[e].plan.value, d.cases[e].deadline.value); }
      }
    }
  }

  // ---- whole operations --------------------------------------------------------------

  lemma AppendKept(d: Disk, first: seq<Disk>, second: seq<Disk>)
    requires AllKept(d, first) && AllKept(After(d, first), second) && Keeps(d, After(d, first))
    ensures AllKept(d, first + second) && Keeps(d, After(d, first + second))
  {
    var mid := After(d, first);
    forall k | 0 <= k < |first + second| ensures Keeps(d, (first + second)[k]) {
      if k >= |first| { KeepsTransitive(d, mid, second[k - |first|]); }
    }
  }

  lemma EnsureKeeps(d: Disk, f: Option<Finding>, now: int)
    ensures AllKept(d, EnsureTrace(d, f, now)) && Keeps(d, After(d, EnsureTrace(d, f, now)))
  {
    if Closable(f) && f.value.event !in d.cases { OpenKeeps(d, f.value, now); }
  }

  lemma LiftKeeps(d: Disk, worlds: seq<World>)
    ensures AllKept(d, Lift(d, worlds)) && Keeps(d, After(d, Lift(d, worlds)))
  {
    forall k | 0 <= k < |worlds| ensures Keeps(d, Lift(d, worlds)[k]) { DeviceKeeps(d, worlds[k]); }
  }

  lemma UndoKeeps(d: Disk, c: Case, native: Native, now: int)
    requires c.event in d.cases && d.cases[c.event] == c
    ensures AllKept(d, UndoOutcome(d, c, native, now).trace)
  {
    var a := Undoable(d.device.rows, c.event, now);
    if a.Some? {
      var undo := Lift(d, UndoTrace(d.device, true, a.value.id, native));
      LiftKeeps(d, UndoTrace(d.device, true, a.value.id, native));
      if c.state in {Blocked, NeedsReview, Executing} {
        TouchKeeps(After(d, undo), c.event, c.(state := Reverted));
        AppendKept(d, undo, [Put(After(d, undo), c.(state := Reverted))]);
      }
    }
  }

  lemma CaseCommandKeeps(d: Disk, c: Case, f: Finding, cmd: Command, now: int)
    requires c.event in d.cases && d.cases[c.event] == c
    ensures AllKept(d, CaseOutcome(d, c, f, cmd, now).trace)
  {
    match cmd {
      case Undo(native) => UndoKeeps(d, c, native, now);
      case Review(_) => CloseKeeps(d, c.event, c.(state := Reviewed, mode := ReviewOnly));
      case Reject(_) => CloseKeeps(d, c.event, c.(state := Rejected, mode := ReviewOnly));
      case Defer(_) =>
        if c.state == Waiting && !c.deferred {
          TouchKeeps(d, c.event, c.(deadline := Later(c.deadline, Window(c.severity)), deferred := true));
        }
      case Schedule(protected, actor) =>
        var plan := Enrolled(d, c, f, protected, actor, now);
        if plan.Some? { EnrollKeeps(d, c, plan.value, now); }
    }
  }

  lemma ControlKeeps(d: Disk, f: Option<Finding>, cmd: Command, now: int)
    requires Keyed(d)
    ensures AllKept(d, ControlOutcome(d, f, cmd, now).trace)
  {
    EnsureKeeps(d, f, now);
    if Closable(f) {
      var d1 := After(d, EnsureTrace(d, f, now));
      CaseCommandKeeps(d1, d1.cases[f.value.event], f.value, cmd, now);
      AppendKept(d, EnsureTrace(d, f, now), CaseOutcome(d1, d1.cases[f.value.event], f.value, cmd, now).trace);
    }
  }

  lemma ExecutorKeeps(d: Disk, c: Case, plan: Plan, deadline: int, a: Attempt, worlds: seq<World>)
    requires c.event in d.cases && d.cases[c.event] == c && Armed(c)
    requires c.plan == Some(plan) && c.deadline == Some(deadline) && a.now >= deadline && EvidenceHolds(plan, a)
    ensures var started := Put(d, c.(state := Executing));
            var run := Executor(started, worlds, Block(c.event, deadline, plan, a));
            && AllKept(d, run) && Keeps(d, After(started, run))
            && After(started, run).cases == started.cases
  {
    var started := Put(d, c.(state := Executing));
    var x := Block(c.event, deadline, plan, a);
    TouchKeeps(d, c.event, c.(state := Executing));
    IssueKeeps(d, c, plan, deadline, a);
    forall k | 0 <= k < |worlds| ensures Keeps(d, Executor(started, worlds, x)[k]) {
      var base := if k == 0 then started else Logged(started, x);
      DeviceKeeps(base, worlds[k]);
      KeepsTransitive(d, base, base.(device := worlds[k]));
    }
  }

  /** The commits of an execution whose evidence holds, up to the closing record. */
  lemma RunKeeps(d: Disk, c: Case, plan: Plan, deadline: int, a: Attempt, run: seq<Disk>)
    requires c.event in d.cases && d.cases[c.event] == c && Armed(c)
    requires c.plan == Some(plan) && c.deadline == Some(deadline) && a.now >= deadline && EvidenceHolds(plan, a)
    requires exists worlds :: run == Executor(Put(d, c.(state := Executing)), worlds, Block(c.event, deadline, plan, a))
    ensures AllKept(d, run)
    ensures Keeps(d, Put(After(Put(d, c.(state := Executing)), run), c.(state := NeedsReview)))
    ensures Keeps(d, Put(After(Put(d, c.(state := Executing)), run), c.(state := Blocked, action := Some(a.id))))
  {
    var started := Put(d, c.(state := Executing));
    var worlds :| run == Executor(started, worlds, Block(c.event, deadline, plan, a));
    ExecutorKeeps(d, c, plan, deadline, a, worlds);
    FinishKeeps(d, After(started, run), c, c.(state := NeedsReview));
    FinishKeeps(d, After(started, run), c, c.(state := Blocked, action := Some(a.id)));
  }

  /** The commits of an execution whose evidence does not hold. */
  lemma RefusalKeeps(d: Disk, c: Case)
    requires c.event in d.cases && d.cases[c.event] == c && Armed(c)
    ensures var started := Put(d, c.(state := Executing));
            Keeps(d, started) && Keeps(d, Put(started, c.(state := NeedsReview)))
  {
    var started := Put(d, c.(state := Executing));
    TouchKeeps(d, c.event, c.(state := Executing));
    FinishKeeps(d, started, c, c.(state := NeedsReview));
  }

  lemma ExecuteKeeps(d: Disk, c: Case, plan: Plan, deadline: int, a: Attempt)
    requires c.event in d.cases && d.cases[c.event] == c && Armed(c)
    requires c.plan == Some(plan) && c.deadline == Some(deadline) && a.now >= deadline
    ensures AllKept(d, ExecuteTrace(d, c, plan, deadline, a))
  {
    RefusalKeeps(d, c);
    AttemptKeeps(d, c, plan, deadline, a);
  }

  lemma AttemptKeeps(d: Disk, c: Case, plan: Plan, deadline: int, a: Attempt)
    requires c.event in d.cases && d.cases[c.event] == c && Armed(c)
    requires c.plan == Some(plan) && c.deadline == Some(deadline) && a.now >= deadline
    ensures AllKept(d, AttemptTrace(Put(d, c.(state := Executing)), c, plan, deadline, a))
  {
    RefusalKeeps(d, c);
    if EvidenceHolds(plan, a) {
      var started := Put(d, c.(state := Executing));
      var worlds := ApproveTrace(d.device, Some(HostScope(plan.identity.target, plan.protected)), true,
                                 ApprovalRequest(c.event, plan, a), a.native);
      RunKeeps(d, c, plan, deadline, a, Executor(started, worlds, Block(c.event, deadline, plan, a)));
    }
  }

  lemma FinishKeeps(d: Disk, last: Disk, c: Case, done: Case)
    requires Keeps(d, last) && c.event in last.cases && last.cases[c.event] == c.(state := Executing)
    requires done in {c.(state := NeedsReview), c.(state := Blocked, action := done.action)}
    ensures Keeps(d, Put(last, done))
  {
    TouchKeeps(last, c.event, done);
    KeepsTransitive(d, last, Put(last, done));
  }

  lemma DeadlineKeeps(d: Disk, e: EventId, a: Attempt)
    requires Keyed(d)
    ensures AllKept(d, DeadlineTrace(d, e, a))
  {
    if e in d.cases && d.cases[e].state == Waiting && d.cases[e].deadline.Some? && a.now >= d.cases[e].deadline.value {
      var c := d.cases[e];
      if c.mode != Automatic || d.stopped || c.plan.None? {
        TouchKeeps(d, e, c.(state := Overdue));
      } else {
        ExecuteKeeps(d, c, c.plan.value, c.deadline.value, a);
      }
    }
  }

  /** What each turn keeps of the state it finds, the loop keeps of the state it began with. */
  lemma LoopKeeps(d: Disk, turns: Turns<Disk>, n: nat)
    requires Keyed(d)
    requires forall i: nat, s: Disk :: i < n && Keyed(s) ==> AllKept(s, turns(i, s))
    ensures AllKept(d, UpTo(d, turns, n)) && Keeps(d, After(d, UpTo(d, turns, n)))
  {
    var inv := (s: Disk) => Keeps(d, s);
    forall i: nat, s: Disk | i < n && inv(s) ensures AllHold(turns(i, s), inv) {
      var t := turns(i, s);
      assert AllKept(s, t);
      forall j | 0 <= j < |t| ensures Keeps(d, t[j]) { KeepsTransitive(d, s, t[j]); }
    }
    TurnsKeep(d, turns, n, inv);
  }

  lemma SweepKeeps(d: Disk, e: EventId)
    ensures AllKept(d, SweepTrace(d, e))
  {
    if e in d.cases {
      TouchKeeps(d, e, d.cases[e].(state := if d.cases[e].state == Blocked then Lapsed else d.cases[e].state));
      TouchKeeps(d, e, d.cases[e].(state := if d.cases[e].state == Blocked then Reverted else d.cases[e].state));
    }
  }

  lemma RestartKeeps(d: Disk, order: seq<EventId>)
    requires Keyed(d)
    ensures AllKept(d, RestartTrace(d, order))
  {
    forall i: nat, s: Disk | i < |order| && Keyed(s) ensures AllKept(s, Interruptions(order)(i, s)) {
      var e := order[i];
      if e in s.cases && s.cases[e].state == Executing { TouchKeeps(s, e, s.cases[e].(state := NeedsReview)); }
    }
    LoopKeeps(d, Interruptions(order), |order|);
  }

  lemma OpeningKeeps(d: Disk, findings: seq<Finding>, now: int)
    requires Keyed(d)
    ensures var t := UpTo(d, OpeningTurns(findings, now), |findings|); AllKept(d, t) && Keeps(d, After(d, t))
  {
    forall i: nat, s: Disk | i < |findings| && Keyed(s) ensures AllKept(s, OpeningTurns(findings, now)(i, s)) {
      EnsureKeeps(s, Some(findings[i]), now);
    }
    LoopKeeps(d, OpeningTurns(findings, now), |findings|);
  }

  lemma DeadlinesKeep(d: Disk, due: seq<EventId>, attempt: EventId -> Attempt)
    requires Keyed(d)
    ensures var t := UpTo(d, DeadlineTurns(due, attempt), |due|); AllKept(d, t) && Keeps(d, After(d, t))
  {
    forall i: nat, s: Disk | i < |due| && Keyed(s) ensures AllKept(s, DeadlineTurns(due, attempt)(i, s)) {
      DeadlineKeeps(s, due[i], attempt(due[i]));
    }
    LoopKeeps(d, DeadlineTurns(due, attempt), |due|);
  }

  lemma SweepsKeep(d: Disk, executed: seq<EventId>)
    requires Keyed(d)
    ensures var t := UpTo(d, SweepTurns(executed), |executed|); AllKept(d, t) && Keeps(d, After(d, t))
  {
    forall i: nat, s: Disk | i < |executed| && Keyed(s) ensures AllKept(s, SweepTurns(executed)(i, s)) {
      SweepKeeps(s, executed[i]);
    }
    LoopKeeps(d, SweepTurns(executed), |executed|);
  }

  lemma FollowKeeps(d: Disk, p: Pass)
    requires Keyed(d)
    ensures AllKept(d, FollowTrace(d, p)) && Keeps(d, After(d, FollowTrace(d, p)))
  {
    var t := if p.reconcile then Reconciled(d, p.turn) else [];
    LiftKeeps(d, ReconcileTrace(d.device, None, p.turn));
    SweepsKeep(After(d, t), p.executed);
    AppendKept(d, t, UpTo(After(d, t), SweepTurns(p.executed), |p.executed|));
  }

  lemma ActKeeps(d: Disk, p: Pass)
    requires Keyed(d)
    ensures AllKept(d, ActTrace(d, p)) && Keeps(d, After(d, ActTrace(d, p)))
  {
    var t := UpTo(d, DeadlineTurns(p.due, p.attempt), |p.due|);
    DeadlinesKeep(d, p.due, p.attempt);
    FollowKeeps(After(d, t), p);
    AppendKept(d, t, FollowTrace(After(d, t), p));
  }

  lemma TickKeeps(d: Disk, p: Pass)
    requires Keyed(d)
    ensures AllKept(d, TickTrace(d, p))
  {
    var t := UpTo(d, OpeningTurns(p.findings, p.now), |p.findings|);
    OpeningKeeps(d, p.findings, p.now);
    ActKeeps(After(d, t), p);
    AppendKept(d, t, ActTrace(After(d, t), p));
  }

  lemma ManualKeeps(d: Disk, f: Finding, worlds: seq<World>, ok: bool, undo: bool, now: int)
    ensures AllKept(d, ManualTrace(d, f, worlds, ok, undo, now))
  {
    LiftKeeps(d, worlds);
    var d1 := After(d, Lift(d, worlds));
    EnsureKeeps(d1, Some(f), now);
    var t2 := EnsureTrace(d1, Some(f), now);
    var d2 := After(d1, t2);
    AppendKept(d, Lift(d, worlds), t2);
    if f.event in d2.cases {
      var c := d2.cases[f.event].(state := if undo then Reverted else Blocked, mode := Manual);
      TouchKeeps(d2, f.event, c);
      AppendKept(d, Lift(d, worlds) + t2, [d2.(cases := d2.cases[f.event := c])]);
    }
  }

  // ---- the emergency stop ---------------------------------------------------------------

  /** Beginning a stop disarms nothing yet: what is armed now is on its list. */
  lemma HaltCarries(d: Disk)
    ensures Carries(d, Halted(d))
  {
    var d', x := Halted(d), Stopped(ArmedCases(d));
    if Once(d) {
      forall b | 0 <= b < |d'.log| ensures BlockOk(d', b) { assert b < |d.log| ==> BlockOk(d, b); }
      assert Once(d');
    }
    if Authority(d) {
      WarrantedAppend(d.log, x);
      assert (d.log + [x])[..|d.log|] == d.log;
      forall e | e in d'.cases ensures ArmedOk(d', e) {
        assert ArmedOk(d, e);
        if Armed(d.cases[e]) { StandingAppend(d.log, x, e, d.cases[e].plan.value, d.cases[e].deadline.value); }
      }
    }
  }

  lemma CancelKeeps(d: Disk, e: EventId)
    requires Keyed(d)
    ensures AllKept(d, Cancelled(d, e))
  {
    if e in d.cases && Armed(d.cases[e]) {
      var off := d.(cases := d.cases[e := d.cases[e].(mode := ReviewOnly)]);
      TouchKeeps(d, e, d.cases[e].(mode := ReviewOnly));
      LogKeeps(off, Disarmed(e));
      KeepsTransitive(d, off, Logged(off, Disarmed(e)));
    }
  }

  /** A stop keeps every invariant wherever it is cut. */
  lemma StopCarries(d: Disk, order: seq<EventId>)
    requires Keyed(d)
    ensures forall k :: 0 <= k < |StopTrace(d, order)| ==> Carries(d, StopTrace(d, order)[k])
  {
    var halted := Halted(d);
    HaltCarries(d);
    forall i: nat, s: Disk | i < |order| && Keyed(s) ensures AllKept(s, Cancellations(order)(i, s)) { CancelKeeps(s, order[i]); }
    LoopKeeps(halted, Cancellations(order), |order|);
    var t := UpTo(halted, Cancellations(order), |order|);
    forall k | 0 <= k < |StopTrace(d, order)| ensures Carries(d, StopTrace(d, order)[k]) {
      if k > 0 { assert StopTrace(d, order)[k] == t[k - 1] && Keeps(halted, t[k - 1]); }
    }
  }

  /** A case as the stop leaves it. */
  function Unarmed(c: Case): Case { if Armed(c) then c.(mode := ReviewOnly) else c }

  /** `d'` is `d` after the cancellations of `done`, each armed case among them logged and nothing else. */
  predicate Cancels(d: Disk, d': Disk, done: seq<EventId>) {
    && d' == d.(cases := d'.cases, log := d'.log) && d'.cases.Keys == d.cases.Keys && d.log <= d'.log
    && (forall e :: e in d.cases ==> d'.cases[e] == if e in done then Unarmed(d.cases[e]) else d.cases[e])
    && (forall j :: |d.log| <= j < |d'.log| ==> d'.log[j].Disarmed?)
    && forall e :: e in done && e in d.cases && Armed(d.cases[e]) ==> Disarmed(e) in d'.log[|d.log|..]
  }

  lemma CancelOne(d: Disk, d1: Disk, done: seq<EventId>, e: EventId)
    requires Cancels(d, d1, done)
    ensures Cancels(d, After(d1, Cancelled(d1, e)), done + [e])
  {
    var d2 := After(d1, Cancelled(d1, e));
    assert d2.log[|d.log|..] == d1.log[|d.log|..] + d2.log[|d1.log|..];
  }

  lemma CancelEffect(d: Disk, order: seq<EventId>, k: nat)
    requires k <= |order|
    ensures Cancels(d, After(d, UpTo(d, Cancellations(order), k)), order[..k])
  {
    var at := (i: nat, s: Disk) => i <= |order| && Cancels(d, s, order[..i]);
    forall i: nat, s: Disk | i < k && at(i, s) ensures at(i + 1, After(s, Cancellations(order)(i, s))) {
      CancelOne(d, s, order[..i], order[i]);
      assert order[..i + 1] == order[..i] + [order[i]];
    }
    TurnsReach(d, Cancellations(order), k, at);
  }

  /** The state once the stop has had its first `k` turns. */
  function StopAfter(d: Disk, order: seq<EventId>, k: nat): Disk {
    After(Halted(d), UpTo(Halted(d), Cancellations(order), k))
  }

  /** Wherever a stop is cut behind its first commit, it has had some number of its turns. */
  lemma CutStopIsTurns(d: Disk, order: seq<EventId>, cut: nat) returns (k: nat)
    requires cut > 0
    ensures k <= |order| && Cut(d, StopTrace(d, order), cut) == StopAfter(d, order, k)
  {
    var halted := Halted(d);
    k := TurnsWithin(halted, Cancellations(order), |order|, cut - 1);
    var all := UpTo(halted, Cancellations(order), |order|);
    if cut < |StopTrace(d, order)| {
      assert StopTrace(d, order)[cut - 1] == ([halted] + all)[cut - 1];
    }
  }

  /** Turns of at most one commit each can be cut only between two of them. */
  lemma {:induction false} TurnsWithin(d: Disk, turns: Turns<Disk>, n: nat, cut: nat) returns (k: nat)
    requires forall i: nat, s: Disk :: i < n ==> |turns(i, s)| <= 1
    ensures k <= n && UpTo(d, turns, k) <= UpTo(d, turns, n)
    ensures if cut < |UpTo(d, turns, n)| then |UpTo(d, turns, k)| == cut else UpTo(d, turns, k) == UpTo(d, turns, n)
  {
    if n == 0 || cut >= |UpTo(d, turns, n)| {
      k := n;
    } else {
      var before := UpTo(d, turns, n - 1);
      if cut < |before| { k := TurnsWithin(d, turns, n - 1, cut); } else { k := n - 1; }
    }
  }

  /** A stop that runs to its end over every case leaves nothing armed. */
  lemma StopLeavesNothingArmed(d: Disk, order: seq<EventId>)
    requires forall e :: e in d.cases ==> e in order
    ensures var d' := After(d, StopTrace(d, order));
            forall e :: e in d'.cases ==> !Armed(d'.cases[e])
  {
    CancelEffect(Halted(d), order, |order|);
    assert order[..|order|] == order;
    var t := UpTo(Halted(d), Cancellations(order), |order|);
    assert After(d, StopTrace(d, order)) == After(Halted(d), t);
  }

  lemma ResumeKeeps(d: Disk)
    ensures AllKept(d, ResumeTrace(d))
  {
    var d' := ResumeTrace(d)[0];
    if Once(d) {
      forall b | 0 <= b < |d'.log| ensures BlockOk(d', b) { assert b < |d.log| ==> BlockOk(d, b); }
      assert Once(d');
    }
    if Authority(d) {
      WarrantedAppend(d.log, Resumed);
      assert (d.log + [Resumed])[..|d.log|] == d.log;
      forall e | e in d'.cases ensures ArmedOk(d', e) {
        assert ArmedOk(d, e);
        if Armed(d.cases[e]) { StandingAppend(d.log, Resumed, e, d.cases[e].plan.value, d.cases[e].deadline.value); }
      }
    }
  }

  /** Stop, crash once the first `k` of the listed cases are done, then resume: a case can still fire
      exactly when it was armed and the crash came before its turn. So a completed stop never
      re-arms, and an interrupted one does. */
  lemma InterruptedStop(d: Disk, order: seq<EventId>, k: nat, e: EventId)
    requires k <= |order| && e in d.cases
    ensures var resumed := After(d, ResumeTrace(StopAfter(d, order, k)));
            e in resumed.cases && !resumed.stopped && (Armed(resumed.cases[e]) <==> Armed(d.cases[e]) && e !in order[..k])
  {
    CancelEffect(Halted(d), order, k);
  }

  lemma ApprovalRow(w: World, scope: Option<Scope>, q: Request, n: Native, k: nat)
    requires q.expected.Some? && k < |ApproveTrace(w, scope, true, q, n)|
    ensures var w' := ApproveTrace(w, scope, true, q, n)[k];
            && |w'.rows| == |w.rows| + 1 && w'.rows[|w.rows|].id == q.id
            && w'.rows[|w.rows|].event == q.event && w'.rows[|w.rows|].target == q.expected.value
            && w'.native <= w.native + {q.id}
    ensures scope.Some? ==> Permits(scope.value, q.expected.value)
  {}

  /** The executor only ever inserts one row, for the enrolled target of the enrolled case. */
  lemma ExecutorBlocksTheEnrolledTarget(w: World, e: EventId, plan: Plan, a: Attempt, k: nat)
    requires Rebuilt(plan, a).Some?
    requires k < |ApproveTrace(w, Some(HostScope(plan.identity.target, plan.protected)), true, ApprovalRequest(e, plan, a), a.native)|
    ensures var w' := ApproveTrace(w, Some(HostScope(plan.identity.target, plan.protected)), true, ApprovalRequest(e, plan, a), a.native)[k];
            && |w'.rows| == |w.rows| + 1
            && w'.rows[|w.rows|].event == e && w'.rows[|w.rows|].target == plan.identity.target
            && w'.native <= w.native + {w'.rows[|w.rows|].id}
    ensures !Protected(plan.protected, plan.identity.target)
  {
    ApprovalRow(w, Some(HostScope(plan.identity.target, plan.protected)), ApprovalRequest(e, plan, a), a.native, k);
  }

  // ---- runs -----------------------------------------------------------------------------------

  datatype Op = Commanding(f: Option<Finding>, cmd: Command, now: int)
              | Stopping(order: seq<EventId>)
              | Resuming
              | Ticking(p: Pass)
              | Manually(row: Finding, worlds: seq<World>, ok: bool, undo: bool, now: int)
              | Restarting(order: seq<EventId>)

  /** One operation that a crash may stop after `cut` commits; a large `cut` means no crash. */
  datatype Step = Step(op: Op, cut: nat)

  function OpTrace(d: Disk, op: Op): seq<Disk> {
    match op
    case Commanding(f, cmd, now) => ControlOutcome(d, f, cmd, now).trace
    case Stopping(order) => StopTrace(d, order)
    case Resuming => ResumeTrace(d)
    case Ticking(p) => TickTrace(d, p)
    case Manually(f, worlds, ok, undo, now) => ManualTrace(d, f, worlds, ok, undo, now)
    case Restarting(order) => RestartTrace(d, order)
  }

  function Run(d: Disk, steps: seq<Step>): Disk
    decreases |steps|
  {
    if steps == [] then d else Run(Cut(d, OpTrace(d, steps[0].op), steps[0].cut), steps[1..])
  }

  lemma StepCarries(d: Disk, s: Step)
    requires Keyed(d)
    ensures Carries(d, Cut(d, OpTrace(d, s.op), s.cut))
    ensures !s.op.Stopping? ==> Quiet(d, Cut(d, OpTrace(d, s.op), s.cut))
  {
    match s.op {
      case Commanding(f, cmd, now) => ControlKeeps(d, f, cmd, now);
      case Stopping(order) => StopCarries(d, order);
      case Resuming => ResumeKeeps(d);
      case Ticking(p) => TickKeeps(d, p);
      case Manually(f, worlds, ok, undo, now) => ManualKeeps(d, f, worlds, ok, undo, now);
      case Restarting(order) => RestartKeeps(d, order);
    }
  }

  lemma {:induction false} RunCarries(d: Disk, steps: seq<Step>)
    requires Keyed(d)
    ensures Carries(d, Run(d, steps))
    decreases |steps|
  {
    if steps != [] {
      StepCarries(d, steps[0]);
      RunCarries(Cut(d, OpTrace(d, steps[0].op), steps[0].cut), steps[1..]);
    }
  }

  const EMPTY := Disk(map[], false, World([], {}), [])

  /** Over every run, with crashes anywhere: one automatic block at most per case and per incident
      identity, deadlines moved only by the single deferral, and no case waiting twice. */
  lemma AtMostOneAutomaticBlock(steps: seq<Step>, later: seq<Step>)
    ensures var d := Run(EMPTY, steps);
            && (forall a, b :: 0 <= a < b < |d.log| && d.log[a].Block? && d.log[b].Block? ==>
                  d.log[a].event != d.log[b].event && d.log[a].plan.identity != d.log[b].plan.identity)
            && (forall e :: e in d.cases ==> DeadlineOk(d.cases[e]))
            && Grows(d, Run(d, later))
  {
    var d := Run(EMPTY, steps);
    RunCarries(EMPTY, steps);
    RunCarries(d, later);
    assert Once(EMPTY);
    forall e | e in d.cases ensures DeadlineOk(d.cases[e]) { assert CaseOk(e, d.cases[e]); }
    forall a, b | 0 <= a < b < |d.log| && d.log[a].Block? && d.log[b].Block?
      ensures d.log[a].plan.identity != d.log[b].plan.identity
    {
      assert BlockOk(d, a) && BlockOk(d, b);
      assert !SharedIdentity(d.cases[d.log[a].event], d.cases[d.log[b].event]);
    }
  }

  /** A live row, at most thirty seconds old and about the same account or process as the original,
      supported the enrolled rule and target again, and is what the executor was given. */
  predicate Grounded(plan: Plan, a: Attempt) {
    a.original.Some? && exists c :: c in a.candidates && Qualifies(c, a.original.value.actor, plan, a.now)
                                    && Rebuilt(plan, a) == Some(Checked(c, plan.identity.rule))
  }

  lemma {:induction false} FreshEvidenceQualifies(original: Actor, candidates: seq<Candidate>, plan: Plan, now: int)
    ensures match FreshEvidence(original, candidates, plan, now)
            case None => forall c :: c in candidates ==> !Qualifies(c, original, plan, now)
            case Some(e) => exists c :: c in candidates && Qualifies(c, original, plan, now) && e == Checked(c, plan.identity.rule)
  {
    if candidates != [] && !Qualifies(candidates[0], original, plan, now) {
      FreshEvidenceQualifies(original, candidates[1..], plan, now);
    }
  }

  /** Over every run, whatever is cut: each automatic block was due, rests on a schedule of that case and
      plan that was still standing, and on evidence gathered anew. */
  lemma EveryBlockIsAuthorized(steps: seq<Step>, b: nat)
    requires b < |Run(EMPTY, steps).log| && Run(EMPTY, steps).log[b].Block?
    ensures Warranted(Run(EMPTY, steps).log, b)
    ensures Grounded(Run(EMPTY, steps).log[b].plan, Run(EMPTY, steps).log[b].attempt)
  {
    RunCarries(EMPTY, steps);
    assert Once(EMPTY) && Authority(EMPTY);
    var x := Run(EMPTY, steps).log[b];
    assert Warranted(Run(EMPTY, steps).log, b);
    FreshEvidenceQualifies(x.attempt.original.value.actor, x.attempt.candidates, x.plan, x.attempt.now);
  }

  // ---- stops between a schedule and its block --------------------------------------------------

  lemma OnlyStopsLogStops(d: Disk, s: Step, j: nat)
    requires Keyed(d)
    requires var next := Cut(d, OpTrace(d, s.op), s.cut); |d.log| <= j < |next.log| && next.log[j].Stopped?
    ensures s.op.Stopping? && s.cut > 0 && j == |d.log|
  {
    StepCarries(d, s);
    if s.op.Stopping? && s.cut > 0 {
      var k := CutStopIsTurns(d, s.op.order, s.cut);
      CancelEffect(Halted(d), s.op.order, k);
      assert Cut(d, OpTrace(d, s.op), s.cut) == StopAfter(d, s.op.order, k);
    }
  }

  /** The step that logged a stop: nothing else logs one, and it does so first. */
  lemma {:induction false} FindStop(d: Disk, steps: seq<Step>, j: nat) returns (s: nat)
    requires Keyed(d) && |d.log| <= j < |Run(d, steps).log| && Run(d, steps).log[j].Stopped?
    ensures s < |steps| && steps[s].op.Stopping? && steps[s].cut > 0
    ensures var at := Run(d, steps[..s]);
            |at.log| == j && Cut(at, OpTrace(at, steps[s].op), steps[s].cut).log <= Run(d, steps).log
    decreases |steps|
  {
    var next := Cut(d, OpTrace(d, steps[0].op), steps[0].cut);
    StepCarries(d, steps[0]);
    RunCarries(next, steps[1..]);
    if j < |next.log| {
      s := 0;
      assert steps[..0] == [] && next.log[j].Stopped?;
      OnlyStopsLogStops(d, steps[0], j);
    } else {
      var m := FindStop(next, steps[1..], j);
      s := m + 1;
      assert steps[..s][0] == steps[0] && steps[..s][1..] == steps[1..][..m];
    }
  }

  /** The step is a stop that ended, or was cut, before the turn of `e` came. */
  predicate EndsBefore(d: Disk, s: Step, e: EventId) {
    s.op.Stopping? && exists k :: 0 <= k <= |s.op.order| && e !in s.op.order[..k]
                                  && Cut(d, OpTrace(d, s.op), s.cut) == StopAfter(d, s.op.order, k)
  }

  /** What a stop that found `e` armed and came to its turn has logged. */
  lemma TurnDisarms(d: Disk, order: seq<EventId>, k: nat, e: EventId) returns (i: nat)
    requires k <= |order| && e in ArmedCases(d) && e in order[..k]
    ensures |d.log| < i < |StopAfter(d, order, k).log| && StopAfter(d, order, k).log[i] == Disarmed(e)
  {
    CancelEffect(Halted(d), order, k);
    var next := StopAfter(d, order, k);
    var n := |d.log| + 1;
    assert Disarmed(e) in next.log[n..];
    var x :| 0 <= x < |next.log[n..]| && next.log[n..][x] == Disarmed(e);
    i := n + x;
  }

  lemma SparedByTheStop(d: Disk, order: seq<EventId>, k: nat, e: EventId)
    requires k <= |order| && e in ArmedCases(d)
    requires forall i :: |d.log| < i < |StopAfter(d, order, k).log| ==> StopAfter(d, order, k).log[i] != Disarmed(e)
    ensures e !in order[..k]
  {
    if e in order[..k] { var i := TurnDisarms(d, order, k, e); }
  }

  /** Over every run: a stop logged between a schedule and the block that rests on it found the case
      armed, and ended before the turn of that case came. */
  lemma OnlyCutStopsIntervene(steps: seq<Step>, b: nat, k: nat, j: nat)
    requires b < |Run(EMPTY, steps).log| && Run(EMPTY, steps).log[b].Block? && k < j < b
    requires var x := Run(EMPTY, steps).log[b]; Authorizes(Run(EMPTY, steps).log[..b], k, x.event, x.plan, x.deadline)
    requires Run(EMPTY, steps).log[j].Stopped?
    ensures exists s :: 0 <= s < |steps| && |Run(EMPTY, steps[..s]).log| == j
                        && Run(EMPTY, steps).log[b].event in ArmedCases(Run(EMPTY, steps[..s]))
                        && EndsBefore(Run(EMPTY, steps[..s]), steps[s], Run(EMPTY, steps).log[b].event)
  {
    var log, e := Run(EMPTY, steps).log, Run(EMPTY, steps).log[b].event;
    var s := FindStop(EMPTY, steps, j);
    var d, order := Run(EMPTY, steps[..s]), steps[s].op.order;
    var n := CutStopIsTurns(d, order, steps[s].cut);
    var next := StopAfter(d, order, n);
    CancelEffect(Halted(d), order, n);
    assert next.log <= log && next.log[j] == Stopped(ArmedCases(d));
    assert log[..b][j] == log[j] && !Disarms(log[..b][j], e);
    assert forall x :: j <= x < |next.log| ==> next.log[x] == log[x] && !next.log[x].Block?;
    forall x | j < x < |next.log| ensures next.log[x] != Disarmed(e) { assert log[..b][x] == log[x]; }
    SparedByTheStop(d, order, n, e);
  }

  // ---- a cut stop that lets a block through -------------------------------------------------------

  const PEER := Ip(false, 5, false, false, true)
  const ELSEWHERE := Network(true, 0, 128)
  const LOGINS := Evidence(true, true, false, Windows, true, true, Some(0), [Correlation(RepeatedLoginFailures, false)], Some(PEER), None)
  const INCIDENT := Finding("e", LOGINS, 9.0, false, Some(0), [])
  const SOMEONE := Actor("", "", "", "", "")
  const AGAIN := Candidate(Some(0), SOMEONE, false, LOGINS)
  const WORKING := Native(Touch(false, true), Answer(true), Touch(false, false), Answer(true))
  const ATTEMPT := Attempt(60, [AGAIN], Some(Original(SOMEONE, LOGINS)), 1, WORKING)
  const PLAN := Plan(Identity([], RepeatedLoginFailures, PEER), [ELSEWHERE], "a")

  function AtTheHour(): Pass { Pass(60, [], ["e"], _ => ATTEMPT, false, _ => Turn(0, WORKING, 0), []) }

  lemma LoginsPropose()
    ensures Proposal(LOGINS, None, 0) == Proposal(LOGINS, None, 60) == Some(PEER)
    ensures Permits(HostScope(PEER, [ELSEWHERE]), PEER)
    ensures Proposal(LOGINS, Some(HostScope(PEER, [ELSEWHERE])), 60) == Some(PEER)
  {
    assert LOGINS.correlations[0].rule == RepeatedLoginFailures;
    SingleTargetScope(PEER, [ELSEWHERE], PEER);
    assert !Protected([ELSEWHERE], PEER);
  }

  lemma LoginsQualifyAgain()
    ensures EvidenceHolds(PLAN, ATTEMPT) && Rebuilt(PLAN, ATTEMPT) == Some(LOGINS)
  {
    LoginsPropose();
    assert LOGINS.correlations[1..] == [];
    assert Supporting(LOGINS.correlations, RepeatedLoginFailures) == LOGINS.correlations;
    assert Checked(AGAIN, RepeatedLoginFailures) == LOGINS;
  }

  /** The incident's case, enrolled before its deadline of 60. */
  function EnrolledCase(): Case { Case("e", Critical, 0, Some(60), Waiting, Automatic, false, Some(PLAN), None) }

  function Enrolment(): Disk { Disk(map["e" := EnrolledCase()], false, World([], {}), [Scheduled("e", 0, 60, PLAN)]) }

  function Next(d: Disk, s: Step): Disk { Cut(d, OpTrace(d, s.op), s.cut) }

  function EnrolStep(): Step { Step(Commanding(Some(INCIDENT), Schedule(Some([ELSEWHERE]), "a"), 0), 2) }

  lemma Enrolling()
    ensures Next(EMPTY, EnrolStep()) == Enrolment() && ArmedCases(Enrolment()) == {"e"}
  {
    LoginsPropose();
    var c := NewCase(INCIDENT, 0);
    assert c == Case("e", Critical, 0, Some(60), Waiting, ReviewOnly, false, None, None);
    var known := Put(EMPTY, c);
    assert EligibleRule(LOGINS.correlations) == Some(RepeatedLoginFailures);
    assert Enrolled(known, c, INCIDENT, Some([ELSEWHERE]), "a", 0) == Some(PLAN);
    assert known.cases["e" := EnrolledCase()] == map["e" := EnrolledCase()];
  }

  lemma Blocking(d: Disk)
    requires "e" in d.cases && d.cases["e"] == EnrolledCase() && !d.stopped && d.device == World([], {})
    ensures |DeadlineTrace(d, "e", ATTEMPT)| > 2
    ensures DeadlineTrace(d, "e", ATTEMPT)[2].log == d.log + [Block("e", 60, PLAN, ATTEMPT)]
  {
    LoginsQualifyAgain();
    LoginsPropose();
    var q := ApprovalRequest("e", PLAN, ATTEMPT);
    var scope := Some(HostScope(PEER, [ELSEWHERE]));
    assert Admit(d.device, scope, q) == Ok(PEER);
  }

  function TickStep(): Step { Step(Ticking(AtTheHour()), 3) }

  /** A pass that opens nothing and looks at one deadline begins with that deadline's commits. */
  lemma OneDeadline(d: Disk, p: Pass, k: nat)
    requires p.findings == [] && |p.due| == 1 && k < |DeadlineTrace(d, p.due[0], p.attempt(p.due[0]))|
    ensures k < |TickTrace(d, p)| && TickTrace(d, p)[k] == DeadlineTrace(d, p.due[0], p.attempt(p.due[0]))[k]
  {
    var t := DeadlineTrace(d, p.due[0], p.attempt(p.due[0]));
    assert UpTo(d, OpeningTurns(p.findings, p.now), 0) == [] && UpTo(d, DeadlineTurns(p.due, p.attempt), 0) == [];
    assert UpTo(d, DeadlineTurns(p.due, p.attempt), 1) == [] + t == t;
  }

  lemma AtTheHourBlocks(d: Disk)
    requires "e" in d.cases && d.cases["e"] == EnrolledCase() && !d.stopped && d.device == World([], {})
    ensures Next(d, TickStep()).log == d.log + [Block("e", 60, PLAN, ATTEMPT)]
  {
    Blocking(d);
    OneDeadline(d, AtTheHour(), 2);
  }

  /** A scheduled case, an emergency stop that dies behind its first commit, a resume and a pass: the
      block goes through although a stop was begun after the schedule. */
  lemma BlockAfterACutStop()
    ensures Run(EMPTY, [EnrolStep(), StopStep(), ResumeStep(), TickStep()]).log
         == [Scheduled("e", 0, 60, PLAN), Stopped({"e"}), Resumed, Block("e", 60, PLAN, ATTEMPT)]
  {
    Enrolling();
    var d1 := Enrolment();
    CutAndResumed(d1);
    var d3 := Next(Next(d1, StopStep()), ResumeStep());
    AtTheHourBlocks(d3);
    RunOfFour(EMPTY, EnrolStep(), StopStep(), ResumeStep(), TickStep());
  }

  function StopStep(): Step { Step(Stopping(["e"]), 1) }

  function ResumeStep(): Step { Step(Resuming, 1) }

  lemma CutAndResumed(d: Disk)
    ensures Next(Next(d, StopStep()), ResumeStep())
         == d.(stopped := false, log := d.log + [Stopped(ArmedCases(d)), Resumed])
  {
    assert d.log + [Stopped(ArmedCases(d))] + [Resumed] == d.log + [Stopped(ArmedCases(d)), Resumed];
  }

  lemma RunOn(d: Disk, s: Step, rest: seq<Step>)
    ensures Run(d, [s] + rest) == Run(Next(d, s), rest)
  {
    assert ([s] + rest)[1..] == rest;
  }

  lemma RunOfTwo(d: Disk, a: Step, b: Step)
    ensures Run(d, [a, b]) == Next(Next(d, a), b)
  {
    RunOn(d, a, [b]);
    RunOn(Next(d, a), b, []);
    assert [a, b] == [a] + [b] && [b] == [b] + [];
  }

  lemma RunOfFour(d: Disk, a: Step, b: Step, c: Step, e: Step)
    ensures Run(d, [a, b, c, e]) == Next(Next(Next(Next(d, a), b), c), e)
  {
    RunOn(d, a, [b] + [c, e]);
    RunOn(Next(d, a), b, [c, e]);
    RunOfTwo(Next(Next(d, a), b), c, e);
    assert [a, b, c, e] == [a] + ([b] + [c, e]);
  }

  // ---- the native table -----------------------------------------------------------------------------

  /** A rule that appears in a turn of the scheduler is the attempt's own, and its block has been logged. */
  lemma EveryRuleIsLogged(d: Disk, e: EventId, a: Attempt, k: nat)
    requires k < |DeadlineTrace(d, e, a)|
    ensures var d' := DeadlineTrace(d, e, a)[k];
            && d'.device.native <= d.device.native + {a.id}
            && (!(d'.device.native <= d.device.native) ==>
                 |d'.log| == |d.log| + 1 && d'.log[|d.log|].Block? && d'.log[|d.log|].event == d.cases[e].event && d'.log[|d.log|].attempt == a)
  {
    if e in d.cases && Armed(d.cases[e]) && d.cases[e].plan.Some? && d.cases[e].deadline.Some? && k > 0 {
      var c := d.cases[e];
      var started := Put(d, c.(state := Executing));
      if k <= |AttemptTrace(started, c, c.plan.value, c.deadline.value, a)| {
        AttemptRules(started, c, c.plan.value, c.deadline.value, a, k - 1);
      }
    }
  }

  lemma AttemptRules(d: Disk, c: Case, plan: Plan, deadline: int, a: Attempt, k: nat)
    requires k < |AttemptTrace(d, c, plan, deadline, a)|
    ensures var d' := AttemptTrace(d, c, plan, deadline, a)[k];
            && d'.device.native <= d.device.native + {a.id}
            && (d'.device.native <= d.device.native || d'.log == d.log + [Block(c.event, deadline, plan, a)])
  {
    if EvidenceHolds(plan, a) {
      var q, scope := ApprovalRequest(c.event, plan, a), Some(HostScope(plan.identity.target, plan.protected));
      var worlds := ApproveTrace(d.device, scope, true, q, a.native);
      if worlds != [] { P.ApprovalRules(d.device, scope, q, a.native, if k < |worlds| then k else |worlds| - 1); }
    }
  }
}
