/** What holds of the action table and the native table over every run, crashes included. */
module ProtectionRuns {
  import opened Wrappers
  import opened Containment
  import opened Protection

  predicate HasLiveRow(rows: seq<Action>, id: ActionId) {
    exists i :: 0 <= i < |rows| && rows[i].id == id && Live(rows[i].status)
  }

  /** Every rule present in the native table is accounted for by a live row. */
  predicate NoOrphan(w: World) {
    forall id :: id in w.native ==> HasLiveRow(w.rows, id)
  }

  predicate Sound(w: World) { DistinctIds(w.rows) && NoOrphan(w) }

  predicate AllSound(trace: seq<World>) { forall k :: 0 <= k < |trace| ==> Sound(trace[k]) }

  predicate FreshId(w: World, id: ActionId) {
    id !in w.native && forall i :: 0 <= i < |w.rows| ==> w.rows[i].id != id
  }

  // ---- no orphaned native rule --------------------------------------------------

  lemma StatusKeepsSound(w: World, id: ActionId, status: Status)
    requires Sound(w) && (Live(status) || id !in w.native)
    ensures Sound(SetStatus(w, id, status))
  {
    var w' := SetStatus(w, id, status);
    forall r | r in w'.native ensures HasLiveRow(w'.rows, r) {
      var i :| 0 <= i < |w.rows| && w.rows[i].id == r && Live(w.rows[i].status);
      assert w'.rows[i].id == r;
    }
  }

  lemma UndoKeepsSound(w: World, id: ActionId, n: Native)
    requires Sound(w)
    ensures AllSound(UndoTrace(w, true, id, n))
  {
    var touched := NativeUndo(w, id, n);
    assert Sound(touched);
    StatusKeepsSound(touched, id, if RemovalConfirmed(w, id, n, true) then Undone else CleanupFailed);
  }

  lemma RecoverKeepsSound(w: World, scope: Option<Scope>, a: Action, t: Turn)
    requires Sound(w)
    ensures AllSound(RecoverTrace(w, scope, a, t)) && Sound(After(w, RecoverTrace(w, scope, a, t)))
  {
    UndoKeepsSound(w, a.id, t.native);
    var undo := UndoTrace(w, true, a.id, t.native);
    if undo != [] && RemovalConfirmed(w, a.id, t.native, true) {
      StatusKeepsSound(After(w, undo), a.id, if a.status == Executed && a.expires <= t.later then Expired else Recovered);
    }
  }

  lemma ReconcileKeepsSound(w: World, scope: Option<Scope>, turn: ActionId -> Turn)
    requires Sound(w)
    ensures AllSound(ReconcileTrace(w, scope, turn))
  {
    var todo := ActiveRows(w.rows);
    var turns := Recoveries(scope, todo, turn);
    forall i: nat, s: World | i < |todo| && Sound(s) ensures AllHold(turns(i, s), Sound) {
      RecoverKeepsSound(s, scope, todo[i], turn(todo[i].id));
    }
    TurnsKeep(w, turns, |todo|, Sound);
  }

  /** The crash points of an approval that strand its rule: after the row is marked failed, and
      before the rule is gone or the row is marked for cleanup. */
  predicate Stranded(w: World, scope: Option<Scope>, q: Request, n: Native, cut: nat) {
    && Admit(w, scope, q).Ok?
    && !Approved(w, scope, true, q, n)
    && n.block.leaves
    && (cut == 3 || (cut == 4 && n.undo.leaves))
  }

  /** A crash after `cut` commits of an approval leaves no orphan exactly when it misses that window. */
  lemma ApproveCrash(w: World, scope: Option<Scope>, q: Request, n: Native, cut: nat)
    requires Sound(w) && FreshId(w, q.id)
    ensures Sound(Cut(w, ApproveTrace(w, scope, true, q, n), cut)) <==> !Stranded(w, scope, q, n, cut)
  {
    if Admit(w, scope, q).Ok? {
      var pending := Inserted(w, q, Admit(w, scope, q).value);
      PendingSound(w, q, Admit(w, scope, q).value);
      var blocked := NativeBlock(pending, q.id, n);
      var k := |w.rows|;
      assert blocked.rows[k].id == q.id && Live(blocked.rows[k].status);
      assert Sound(blocked);
      if Approved(w, scope, true, q, n) {
        StatusKeepsSound(blocked, q.id, Executed);
      } else {
        FailedApproval(w, q, Admit(w, scope, q).value, n, cut);
      }
    }
  }

  lemma PendingSound(w: World, q: Request, target: Ip)
    requires Sound(w) && FreshId(w, q.id)
    ensures Sound(Inserted(w, q, target))
  {
    var w' := Inserted(w, q, target);
    forall r | r in w'.native ensures HasLiveRow(w'.rows, r) {
      var i :| 0 <= i < |w.rows| && w.rows[i].id == r && Live(w.rows[i].status);
      assert w'.rows[i] == w.rows[i];
    }
  }

  /** With only a failed row for it, a rule is an orphan exactly while it is present. */
  lemma MarkedFailed(w: World, id: ActionId)
    requires Sound(w)
    ensures Sound(SetStatus(w, id, Failed)) <==> id !in w.native
  {
    if id !in w.native { StatusKeepsSound(w, id, Failed); }
  }

  lemma FailedApproval(w: World, q: Request, target: Ip, n: Native, cut: nat)
    requires Sound(w) && FreshId(w, q.id)
    ensures var blocked := NativeBlock(Inserted(w, q, target), q.id, n);
            var failed := SetStatus(blocked, q.id, Failed);
            var trace := [Inserted(w, q, target), blocked, failed] + CleanupTrace(failed, q.id, n, true);
            Sound(Cut(w, trace, cut)) <==> !(n.block.leaves && (cut == 3 || (cut == 4 && n.undo.leaves)))
  {
    var pending := Inserted(w, q, target);
    PendingSound(w, q, target);
    var blocked := NativeBlock(pending, q.id, n);
    assert blocked.rows[|w.rows|].id == q.id && Live(blocked.rows[|w.rows|].status);
    assert Sound(blocked);
    MarkedFailed(blocked, q.id);
    var failed := SetStatus(blocked, q.id, Failed);
    var undone := NativeUndo(blocked, q.id, n);
    MarkedFailed(undone, q.id);
    assert NativeUndo(failed, q.id, n) == SetStatus(undone, q.id, Failed);
    assert SetStatus(NativeUndo(failed, q.id, n), q.id, CleanupFailed) == SetStatus(undone, q.id, CleanupFailed);
    StatusKeepsSound(undone, q.id, CleanupFailed);
  }

  /** Such a crash, from an empty table: the block raises after adding its rule, and the process dies
      once the row reads failed. */
  lemma StrandedExample(target: Ip, raised: Native)
    requires target.isGlobal && raised.block == Touch(true, true)
    ensures var e := Evidence(true, true, false, Windows, true, true, None, [Correlation(RepeatedLoginFailures, false)], Some(target), None);
            var empty, q := World([], {}), Request("event", e, None, "analyst", 1, 0);
            Sound(empty) && FreshId(empty, q.id) && Stranded(empty, None, q, raised, 3)
            && !Sound(Cut(empty, ApproveTrace(empty, None, true, q, raised), 3))
  {
    var e := Evidence(true, true, false, Windows, true, true, None, [Correlation(RepeatedLoginFailures, false)], Some(target), None);
    var empty, q := World([], {}), Request("event", e, None, "analyst", 1, 0);
    assert e.correlations[0] == Correlation(RepeatedLoginFailures, false);
    assert Proposal(e, None, 0) == Some(target);
    ApproveCrash(empty, None, q, raised, 3);
  }

  // ---- runs with crashes ------------------------------------------------------------

  datatype Op = Approving(scope: Option<Scope>, q: Request, n: Native)
              | Undoing(id: ActionId, n: Native)
              | Reconciling(scope: Option<Scope>, turn: ActionId -> Turn)
              | NativeExpiry(id: ActionId)

  /** One operation that a crash may stop after `cut` commits; a large `cut` means no crash. */
  datatype Step = Step(op: Op, cut: nat)

  function OpTrace(w: World, op: Op): seq<World> {
    match op
    case Approving(scope, q, n) => ApproveTrace(w, scope, true, q, n)
    case Undoing(id, n) => UndoTrace(w, true, id, n)
    case Reconciling(scope, turn) => ReconcileTrace(w, scope, turn)
    case NativeExpiry(id) => [w.(native := w.native - {id})]
  }

  function Run(w: World, steps: seq<Step>): World
    decreases |steps|
  {
    if steps == [] then w else Run(Cut(w, OpTrace(w, steps[0].op), steps[0].cut), steps[1..])
  }

  /** Action ids are never reused, and no crash hits the window of a failed approval. */
  predicate RegularStep(w: World, step: Step) {
    step.op.Approving? ==> FreshId(w, step.op.q.id) && !Stranded(w, step.op.scope, step.op.q, step.op.n, step.cut)
  }

  predicate Regular(w: World, steps: seq<Step>)
    decreases |steps|
  {
    steps != [] ==> RegularStep(w, steps[0]) && Regular(Cut(w, OpTrace(w, steps[0].op), steps[0].cut), steps[1..])
  }

  lemma StepKeepsSound(w: World, step: Step)
    requires Sound(w) && RegularStep(w, step)
    ensures Sound(Cut(w, OpTrace(w, step.op), step.cut))
  {
    match step.op {
      case Approving(scope, q, n) => ApproveCrash(w, scope, q, n, step.cut);
      case Undoing(id, n) => UndoKeepsSound(w, id, n);
      case Reconciling(scope, turn) => ReconcileKeepsSound(w, scope, turn);
      case NativeExpiry(id) => assert Sound(w.(native := w.native - {id}));
    }
  }

  /** Whatever the firewall does and wherever else it crashes, no run leaves an orphaned rule. */
  lemma {:induction false} NoRunOrphansARule(w: World, steps: seq<Step>)
    requires Sound(w) && Regular(w, steps)
    ensures Sound(Run(w, steps))
    decreases |steps|
  {
    if steps != [] {
      StepKeepsSound(w, steps[0]);
      NoRunOrphansARule(Cut(w, OpTrace(w, steps[0].op), steps[0].cut), steps[1..]);
    }
  }

  // ---- what reconcile achieves ---------------------------------------------------------

  predicate Settled(a: Action, scope: Option<Scope>, now: int) {
    a.status == CleanupFailed || (a.status == Executed && now < a.expires && (scope.Some? ==> Permits(scope.value, a.target)))
  }

  /** Row `i` after the turns of `done`: settled or no longer live if it had a turn, else untouched. */
  predicate RowAfter(before: Action, after: Action, done: seq<Action>, scope: Option<Scope>, turn: ActionId -> Turn) {
    && after.(status := before.status) == before
    && if before in done then Live(after.status) ==> Settled(after, scope, turn(after.id).now) else after == before
  }

  /** The status a turn writes last to a row that needs recovery. */
  function RecoveredStatus(w: World, a: Action, t: Turn): Status {
    if !RemovalConfirmed(w, a.id, t.native, true) then CleanupFailed
    else if a.status == Executed && a.expires <= t.later then Expired else Recovered
  }

  /** Writing a status over another leaves the later one. */
  lemma SetTwice(rows: seq<Action>, id: ActionId, first: Status, last: Status)
    ensures SetRows(SetRows(rows, id, first), id, last) == SetRows(rows, id, last)
  {}

  lemma UndoShape(w: World, a: Action, n: Native)
    requires Find(w.rows, a.id).Some?
    ensures var undo := UndoTrace(w, true, a.id, n);
            && |undo| == 2 && undo[0].rows == w.rows
            && undo[1].rows == SetRows(w.rows, a.id, if RemovalConfirmed(w, a.id, n, true) then Undone else CleanupFailed)
  {}

  /** A turn that is needed changes the status of that one row. */
  lemma RecoverEnds(w: World, scope: Option<Scope>, a: Action, t: Turn)
    requires Find(w.rows, a.id).Some?
    ensures var trace := RecoverTrace(w, scope, a, t);
            if NeedsRecovery(scope, a, t.now)
            then After(w, trace).rows == SetRows(w.rows, a.id, RecoveredStatus(w, a, t))
            else trace == []
  {
    UndoShape(w, a, t.native);
    SetTwice(w.rows, a.id, Undone, RecoveredStatus(w, a, t));
  }

  /** Every state within a turn has the old rows, or differs in the status of that one row. */
  lemma RecoverShape(w: World, scope: Option<Scope>, a: Action, t: Turn)
    requires Find(w.rows, a.id).Some?
    ensures forall k :: 0 <= k < |RecoverTrace(w, scope, a, t)| ==>
              var w' := RecoverTrace(w, scope, a, t)[k];
              w'.rows == w.rows || exists status :: w'.rows == SetRows(w.rows, a.id, status)
  {
    UndoShape(w, a, t.native);
    SetTwice(w.rows, a.id, Undone, RecoveredStatus(w, a, t));
  }

  /** The rules `native`, less some of `touched`. */
  predicate OnlyRemoved(w: World, native: set<ActionId>, touched: set<ActionId>) { native - touched <= w.native <= native }

  lemma RecoverNative(w: World, scope: Option<Scope>, a: Action, t: Turn, native: set<ActionId>, touched: set<ActionId>)
    requires a.id in touched && OnlyRemoved(w, native, touched)
    ensures forall j :: 0 <= j < |RecoverTrace(w, scope, a, t)| ==> OnlyRemoved(RecoverTrace(w, scope, a, t)[j], native, touched)
  {
  }

  function LiveIds(w: World): set<ActionId> { set a | a in ActiveRows(w.rows) :: a.id }

  /** An approval may leave its own rule and no other, and none before its row is committed. */
  lemma ApprovalRules(w: World, scope: Option<Scope>, q: Request, n: Native, k: nat)
    requires k < |ApproveTrace(w, scope, true, q, n)|
    ensures var w' := ApproveTrace(w, scope, true, q, n)[k];
            w'.native <= w.native + {q.id} && (k == 0 ==> w'.native == w.native)
  {}

  /** Reconciling never adds a native rule, whatever fails, and never touches one without a live row. */
  lemma ReconcileNeverBlocks(w: World, scope: Option<Scope>, turn: ActionId -> Turn)
    ensures var trace := ReconcileTrace(w, scope, turn);
            && (forall j :: 0 <= j < |trace| ==> OnlyRemoved(trace[j], w.native, LiveIds(w)))
            && OnlyRemoved(After(w, trace), w.native, LiveIds(w))
  {
    var todo, touched := ActiveRows(w.rows), LiveIds(w);
    var turns, inv := Recoveries(scope, todo, turn), (s: World) => OnlyRemoved(s, w.native, touched);
    forall i: nat, s: World | i < |todo| && inv(s) ensures AllHold(turns(i, s), inv) {
      RecoverNative(s, scope, todo[i], turn(todo[i].id), w.native, touched);
    }
    TurnsKeep(w, turns, |todo|, inv);
  }

  predicate RowsAfter(rows: seq<Action>, rows': seq<Action>, done: seq<Action>, scope: Option<Scope>, turn: ActionId -> Turn) {
    |rows'| == |rows| && forall i :: 0 <= i < |rows| ==> RowAfter(rows[i], rows'[i], done, scope, turn)
  }

  lemma OneTurn(rows: seq<Action>, rows1: seq<Action>, done: seq<Action>, a: Action, scope: Option<Scope>,
                turn: ActionId -> Turn, status: Status)
    requires DistinctIds(rows) && a in rows && Live(a.status) && a !in done
    requires RowsAfter(rows, rows1, done, scope, turn)
    requires status == CleanupFailed || !Live(status)
    ensures RowsAfter(rows, if NeedsRecovery(scope, a, turn(a.id).now) then SetRows(rows1, a.id, status) else rows1,
                      done + [a], scope, turn)
  {
    forall i | 0 <= i < |rows| && rows[i].id == a.id ensures rows[i] == a == rows1[i] {
      assert RowAfter(rows[i], rows1[i], done, scope, turn);
    }
    forall i | 0 <= i < |rows| ensures rows1[i].id == rows[i].id {
      assert RowAfter(rows[i], rows1[i], done, scope, turn);
    }
  }

  lemma NextTurn(w: World, s: World, todo: seq<Action>, i: nat, scope: Option<Scope>, turn: ActionId -> Turn)
    requires DistinctIds(w.rows) && DistinctIds(todo) && i < |todo| && todo[i] in w.rows && Live(todo[i].status)
    requires RowsAfter(w.rows, s.rows, todo[..i], scope, turn)
    ensures RowsAfter(w.rows, After(s, RecoverTrace(s, scope, todo[i], turn(todo[i].id))).rows, todo[..i + 1], scope, turn)
  {
    TurnRows(w, s, todo[..i], todo[i], scope, turn);
    assert todo[..i + 1] == todo[..i] + [todo[i]];
  }

  lemma ReconcileRows(w: World, scope: Option<Scope>, turn: ActionId -> Turn)
    requires DistinctIds(w.rows)
    ensures RowsAfter(w.rows, After(w, ReconcileTrace(w, scope, turn)).rows, ActiveRows(w.rows), scope, turn)
  {
    var todo := ActiveRows(w.rows);
    var turns := Recoveries(scope, todo, turn);
    var at := (i: nat, s: World) => i <= |todo| && RowsAfter(w.rows, s.rows, todo[..i], scope, turn);
    ActiveDistinct(w.rows);
    forall i: nat, s: World | i < |todo| && at(i, s) ensures at(i + 1, After(s, turns(i, s))) {
      assert todo[i] in todo;
      NextTurn(w, s, todo, i, scope, turn);
    }
    TurnsReach(w, turns, |todo|, at);
    assert todo[..|todo|] == todo;
  }

  lemma TurnRows(w: World, w1: World, done: seq<Action>, a: Action, scope: Option<Scope>, turn: ActionId -> Turn)
    requires DistinctIds(w.rows) && a in w.rows && Live(a.status) && a !in done
    requires RowsAfter(w.rows, w1.rows, done, scope, turn)
    ensures RowsAfter(w.rows, After(w1, RecoverTrace(w1, scope, a, turn(a.id))).rows, done + [a], scope, turn)
  {
    var i :| 0 <= i < |w.rows| && w.rows[i] == a;
    assert RowAfter(w.rows[i], w1.rows[i], done, scope, turn);
    RecoverEnds(w1, scope, a, turn(a.id));
    OneTurn(w.rows, w1.rows, done, a, scope, turn, RecoveredStatus(w1, a, turn(a.id)));
  }

  lemma ActiveDistinct(rows: seq<Action>)
    requires DistinctIds(rows)
    ensures DistinctIds(ActiveRows(rows))
  {
    if rows != [] {
      assert forall i, j :: 0 <= i < j < |rows[1..]| ==> rows[1..][i] == rows[i + 1] && rows[1..][j] == rows[j + 1];
      assert DistinctIds(rows[1..]);
      ActiveDistinct(rows[1..]);
      assert forall a :: a in rows[1..] ==> a.id != rows[0].id;
    }
  }

  /** Under any failures, a finished reconcile leaves live only rows that await cleanup, and executed
      rows that were unexpired and in scope at their turn. */
  lemma ReconcileSettles(w: World, scope: Option<Scope>, turn: ActionId -> Turn)
    requires DistinctIds(w.rows)
    ensures forall a :: a in After(w, ReconcileTrace(w, scope, turn)).rows && Live(a.status) ==> Settled(a, scope, turn(a.id).now)
  {
    var w' := After(w, ReconcileTrace(w, scope, turn));
    ReconcileRows(w, scope, turn);
    forall a | a in w'.rows && Live(a.status) ensures Settled(a, scope, turn(a.id).now) {
      var i :| 0 <= i < |w'.rows| && w'.rows[i] == a;
      assert RowAfter(w.rows[i], w'.rows[i], ActiveRows(w.rows), scope, turn);
    }
  }

  /** A stranded rule outlives every later reconcile: rows marked failed are not recovered. */
  lemma ReconcileLeavesStranded(w: World, scope: Option<Scope>, turn: ActionId -> Turn, id: ActionId)
    requires id in w.native && !HasLiveRow(w.rows, id)
    ensures id in After(w, ReconcileTrace(w, scope, turn)).native
  {
    ReconcileNeverBlocks(w, scope, turn);
  }

  // ---- the bound on scoped containment ----------------------------------------------------

  /** At most ten live rows, no two of them for one target. */
  predicate Bounded(rows: seq<Action>) {
    && |ActiveRows(rows)| <= 10
    && forall i, j :: 0 <= i < j < |rows| && Live(rows[i].status) && Live(rows[j].status) ==> rows[i].target != rows[j].target
  }

  /** The same rows, of which no more are live. */
  predicate Within(rows: seq<Action>, base: seq<Action>) {
    && |rows| == |base|
    && forall i :: 0 <= i < |rows| ==> rows[i].target == base[i].target && (Live(rows[i].status) ==> Live(base[i].status))
  }

  lemma FewerLive(rows: seq<Action>, base: seq<Action>)
    requires Within(rows, base)
    ensures |ActiveRows(rows)| <= |ActiveRows(base)|
  {
    if rows != [] {
      assert Within(rows[1..], base[1..]);
      FewerLive(rows[1..], base[1..]);
    }
  }

  lemma WithinBounded(rows: seq<Action>, base: seq<Action>)
    requires Bounded(base) && Within(rows, base)
    ensures Bounded(rows)
  {
    FewerLive(rows, base);
  }

  lemma ActiveAppend(rows: seq<Action>, a: Action)
    ensures ActiveRows(rows + [a]) == ActiveRows(rows) + if Live(a.status) then [a] else []
  {
    if rows == [] {
      assert rows + [a] == [a];
    } else {
      assert (rows + [a])[1..] == rows[1..] + [a];
      ActiveAppend(rows[1..], a);
    }
  }

  predicate AllBounded(trace: seq<World>) {
    forall k :: 0 <= k < |trace| ==> DistinctIds(trace[k].rows) && Bounded(trace[k].rows)
  }

  predicate SameIds(rows: seq<Action>, base: seq<Action>) {
    |rows| == |base| && forall i :: 0 <= i < |rows| ==> rows[i].id == base[i].id
  }

  /** The rows of `base` with some live rows no longer so. */
  predicate Relaxed(rows: seq<Action>, base: seq<Action>) { Within(rows, base) && SameIds(rows, base) }

  predicate AllRelaxed(trace: seq<World>, base: seq<Action>) {
    forall k :: 0 <= k < |trace| ==> Relaxed(trace[k].rows, base)
  }

  lemma RelaxedBounded(trace: seq<World>, base: seq<Action>)
    requires DistinctIds(base) && Bounded(base) && AllRelaxed(trace, base)
    ensures AllBounded(trace)
  {
    forall k | 0 <= k < |trace| ensures DistinctIds(trace[k].rows) && Bounded(trace[k].rows) {
      WithinBounded(trace[k].rows, base);
    }
  }

  lemma SetRelaxed(rows: seq<Action>, base: seq<Action>, i: nat, status: Status)
    requires DistinctIds(base) && Relaxed(rows, base) && i < |base| && Live(base[i].status)
    ensures Relaxed(SetRows(rows, base[i].id, status), base)
  {
  }

  lemma ScopedApproveBounded(w: World, scope: Scope, q: Request, n: Native)
    requires DistinctIds(w.rows) && Bounded(w.rows) && FreshId(w, q.id)
    ensures AllBounded(ApproveTrace(w, Some(scope), true, q, n))
  {
    if Admit(w, Some(scope), q).Ok? {
      var a := NewRow(q, Admit(w, Some(scope), q).value);
      AdmittedBounded(w, scope, q, a);
      ApproveRelaxes(w, scope, q, n, a);
      RelaxedBounded(ApproveTrace(w, Some(scope), true, q, n), w.rows + [a]);
    }
  }

  lemma AdmittedBounded(w: World, scope: Scope, q: Request, a: Action)
    requires DistinctIds(w.rows) && Bounded(w.rows) && FreshId(w, q.id)
    requires Admit(w, Some(scope), q).Ok? && a == NewRow(q, Admit(w, Some(scope), q).value)
    ensures DistinctIds(w.rows + [a]) && Bounded(w.rows + [a])
  {
    ActiveAppend(w.rows, a);
    forall i | 0 <= i < |w.rows| && Live(w.rows[i].status) ensures w.rows[i].target != a.target { assert w.rows[i] in w.rows; }
  }

  lemma ApproveRelaxes(w: World, scope: Scope, q: Request, n: Native, a: Action)
    requires DistinctIds(w.rows + [a]) && Admit(w, Some(scope), q).Ok? && a == NewRow(q, Admit(w, Some(scope), q).value)
    ensures AllRelaxed(ApproveTrace(w, Some(scope), true, q, n), w.rows + [a])
  {
    var base := w.rows + [a];
    assert base[|w.rows|] == a;
    var pending := Inserted(w, q, a.target);
    var blocked := NativeBlock(pending, q.id, n);
    assert pending.rows == base == blocked.rows;
    SetRelaxed(base, base, |w.rows|, Executed);
    SetRelaxed(base, base, |w.rows|, Failed);
    var failed := SetStatus(blocked, q.id, Failed);
    assert failed.rows == SetRows(base, q.id, Failed);
    SetRelaxed(failed.rows, base, |w.rows|, CleanupFailed);
    assert AllRelaxed(CleanupTrace(failed, q.id, n, true), base);
  }

  /** An undo keeps the bound exactly when its row was live, or removal succeeds, or the revived
      row still fits: finished rows may be undone too, and a failed undo makes them live again. */
  lemma UndoBounded(w: World, i: nat, n: Native)
    requires DistinctIds(w.rows) && Bounded(w.rows) && i < |w.rows|
    ensures var a := w.rows[i];
            Bounded(After(w, UndoTrace(w, true, a.id, n)).rows) <==>
              || Live(a.status)
              || RemovalConfirmed(w, a.id, n, true)
              || (|ActiveRows(w.rows)| < 10 && forall b :: b in w.rows && Live(b.status) ==> b.target != a.target)
  {
    var a := w.rows[i];
    var next := if RemovalConfirmed(w, a.id, n, true) then Undone else CleanupFailed;
    UndoRows(w, i, n);
    if Live(a.status) || !Live(next) { WithinBounded(w.rows[i := a.(status := next)], w.rows); }
    else { RevivedBounded(w.rows, i); }
  }

  lemma UndoRows(w: World, i: nat, n: Native)
    requires DistinctIds(w.rows) && i < |w.rows|
    ensures var a := w.rows[i];
            After(w, UndoTrace(w, true, a.id, n)).rows
            == w.rows[i := a.(status := if RemovalConfirmed(w, a.id, n, true) then Undone else CleanupFailed)]
  {
    assert w.rows[i] in w.rows && Find(w.rows, w.rows[i].id).Some?;
  }

  /** One more live row fits if there is room for it and its target is free. */
  lemma RevivedBounded(rows: seq<Action>, i: nat)
    requires Bounded(rows) && i < |rows| && !Live(rows[i].status)
    ensures Bounded(rows[i := rows[i].(status := CleanupFailed)]) <==>
              |ActiveRows(rows)| < 10 && forall b :: b in rows && Live(b.status) ==> b.target != rows[i].target
  {
    var rows' := rows[i := rows[i].(status := CleanupFailed)];
    Revived(rows, i, CleanupFailed);
    if Bounded(rows') {
      forall b | b in rows && Live(b.status) ensures b.target != rows[i].target {
        var j :| 0 <= j < |rows| && rows[j] == b;
        assert rows'[j] == b && rows'[i].target == rows[i].target;
      }
    }
  }

  /** Undoing an action that is already undone may put two live rows on one target. */
  lemma UndoExample(a: Action, n: Native)
    requires a.status == Executed && n.undo.raises
    ensures var w := World([a, a.(id := a.id + 1, status := Undone)], {a.id});
            DistinctIds(w.rows) && Bounded(w.rows) && !Bounded(After(w, UndoTrace(w, true, a.id + 1, n)).rows)
  {
    var w := World([a, a.(id := a.id + 1, status := Undone)], {a.id});
    assert w.rows[1..][1..] == [] && ActiveRows(w.rows[1..]) == [];
    assert ActiveRows(w.rows) == [a];
    assert a in w.rows;
    UndoBounded(w, 1, n);
  }

  lemma Revived(rows: seq<Action>, i: nat, status: Status)
    requires i < |rows| && !Live(rows[i].status) && Live(status)
    ensures |ActiveRows(rows[i := rows[i].(status := status)])| == |ActiveRows(rows)| + 1
  {
    var rows' := rows[i := rows[i].(status := status)];
    if i > 0 {
      assert rows'[1..] == rows[1..][i - 1 := rows[i].(status := status)];
      Revived(rows[1..], i - 1, status);
    } else {
      assert rows'[1..] == rows[1..];
    }
  }

  /** Scoped approvals, undo of live rows, reconcile and native expiry. */
  predicate ScopedStep(w: World, op: Op) {
    match op
    case Approving(scope, q, _) => scope.Some? && FreshId(w, q.id)
    case Undoing(id, _) => HasLiveRow(w.rows, id)
    case _ => true
  }

  predicate ScopedRun(w: World, steps: seq<Step>)
    decreases |steps|
  {
    steps != [] ==> ScopedStep(w, steps[0].op) && ScopedRun(Cut(w, OpTrace(w, steps[0].op), steps[0].cut), steps[1..])
  }

  lemma UndoRelaxes(w: World, base: seq<Action>, i: nat, n: Native)
    requires DistinctIds(base) && Relaxed(w.rows, base) && i < |base| && Live(base[i].status)
    ensures AllRelaxed(UndoTrace(w, true, base[i].id, n), base)
  {
    SetRelaxed(w.rows, base, i, if RemovalConfirmed(w, base[i].id, n, true) then Undone else CleanupFailed);
  }

  lemma RecoverRelaxes(w: World, base: seq<Action>, scope: Option<Scope>, i: nat, t: Turn)
    requires DistinctIds(base) && Relaxed(w.rows, base) && i < |base| && Live(base[i].status)
    ensures AllRelaxed(RecoverTrace(w, scope, base[i], t), base)
  {
    assert w.rows[i].id == base[i].id && Find(w.rows, base[i].id).Some?;
    RecoverShape(w, scope, base[i], t);
    forall status ensures Relaxed(SetRows(w.rows, base[i].id, status), base) { SetRelaxed(w.rows, base, i, status); }
  }

  lemma ReconcileRelaxes(w: World, scope: Option<Scope>, turn: ActionId -> Turn)
    requires DistinctIds(w.rows)
    ensures AllRelaxed(ReconcileTrace(w, scope, turn), w.rows)
  {
    var todo := ActiveRows(w.rows);
    var turns, inv := Recoveries(scope, todo, turn), (s: World) => Relaxed(s.rows, w.rows);
    forall i: nat, s: World | i < |todo| && inv(s) ensures AllHold(turns(i, s), inv) {
      assert todo[i] in todo;
      var j :| 0 <= j < |w.rows| && w.rows[j] == todo[i];
      RecoverRelaxes(s, w.rows, scope, j, turn(todo[i].id));
    }
    TurnsKeep(w, turns, |todo|, inv);
  }

  lemma ScopedStepBounded(w: World, op: Op)
    requires DistinctIds(w.rows) && Bounded(w.rows) && ScopedStep(w, op)
    ensures AllBounded(OpTrace(w, op))
  {
    match op {
      case Approving(scope, q, n) =>
        ScopedApproveBounded(w, scope.value, q, n);
      case Undoing(id, n) =>
        var i :| 0 <= i < |w.rows| && w.rows[i].id == id && Live(w.rows[i].status);
        UndoRelaxes(w, w.rows, i, n);
        RelaxedBounded(OpTrace(w, op), w.rows);
      case Reconciling(scope, turn) =>
        ReconcileRelaxes(w, scope, turn);
        RelaxedBounded(OpTrace(w, op), w.rows);
      case NativeExpiry(id) =>
    }
  }

  /** Over every such run, crashes anywhere, at most ten rows are live and no two share a target. */
  lemma {:induction false} ScopedRunsStayBounded(w: World, steps: seq<Step>)
    requires DistinctIds(w.rows) && Bounded(w.rows) && ScopedRun(w, steps)
    ensures DistinctIds(Run(w, steps).rows) && Bounded(Run(w, steps).rows)
    decreases |steps|
  {
    if steps != [] {
      ScopedStepBounded(w, steps[0].op);
      ScopedRunsStayBounded(Cut(w, OpTrace(w, steps[0].op), steps[0].cut), steps[1..]);
    }
  }
}
