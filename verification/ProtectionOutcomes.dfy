/** How one approval, undo or reconcile ends, in the terms of rows, native rules and native replies. */
module ProtectionOutcomes {
  import opened Wrappers
  import opened Containment
  import opened Protection
  import opened ProtectionRuns

  // ---- what may be blocked ----------------------------------------------------------

  predicate Correlated(e: Evidence, rule: Rule) {
    exists i :: 0 <= i < |e.correlations| && e.correlations[i].rule == rule && (rule == MalwareProcessNetwork ==> e.correlations[i].verified)
  }

  /** An address of the network, and of an IPv4 network with room for more than two neither its first nor its last. */
  predicate HostOf(n: Network, ip: Ip) {
    && ip.v6 == n.v6 && n.base <= ip.bits < n.base + Size(n)
    && (!ip.v6 && n.prefixLen <= 30 ==> n.base < ip.bits < n.base + Size(n) - 1)
  }

  predicate InScope(scope: Scope, ip: Ip) {
    && !ip.special && !ip.v4Mapped
    && (exists i :: 0 <= i < |scope.allowed| && HostOf(scope.allowed[i], ip))
    && (forall i :: 0 <= i < |scope.protected| ==>
          var n := scope.protected[i]; ip.v6 != n.v6 || ip.bits < n.base || ip.bits >= n.base + Size(n))
  }

  lemma InNetwork(n: Network, ip: Ip)
    ensures Contains(n, ip) && NamesHost(n, ip) <==> HostOf(n, ip)
  {}

  lemma ScopePermits(scope: Scope, ip: Ip)
    ensures Permits(scope, ip) <==> InScope(scope, ip)
  {
    forall n { InNetwork(n, ip); }
    assert (exists n :: n in scope.allowed && HostOf(n, ip)) <==> (exists i :: 0 <= i < |scope.allowed| && HostOf(scope.allowed[i], ip));
    assert Protected(scope.protected, ip) <==> exists i :: 0 <= i < |scope.protected| && Contains(scope.protected[i], ip);
  }

  /** A row proposes the address of the repeated logins, or else the peer of the correlated connection. */
  predicate Points(e: Evidence, scoped: bool, ip: Ip) {
    if Correlated(e, RepeatedLoginFailures) then e.src == Some(ip)
    else
      && e.dst == Some(ip)
      && (|| Correlated(e, SuspiciousProcessNetwork) || Correlated(e, MalwareProcessNetwork)
          || (scoped && e.connector == LocalProcess && Correlated(e, SustainedCpuTemporaryNetwork)))
  }

  /** A finished escalation of this device that no replay made; within a scope also fresh and from
      exactly this host. */
  predicate Blockable(e: Evidence, scope: Option<Scope>, now: int, ip: Ip) {
    && e.done && e.escalated && !e.replayed && e.shortHost && Points(e, scope.Some?, ip)
    && match scope
       case None => e.connector in {Windows, Sysmon} && ip.isGlobal
       case Some(s) =>
         && e.connector in {Windows, Sysmon, LinuxAuth, LocalProcess} && e.exactHost
         && e.timestamp.Some? && 0 <= now - e.timestamp.value <= 300 && InScope(s, ip)
  }

  lemma CorrelatedRule(e: Evidence, rule: Rule)
    ensures HasRule(e, rule) <==> Correlated(e, rule)
  {
    if HasRule(e, rule) {
      var c :| c in e.correlations && c.rule == rule && (rule == MalwareProcessNetwork ==> c.verified);
      var i :| 0 <= i < |e.correlations| && e.correlations[i] == c;
    }
    if Correlated(e, rule) {
      var i :| 0 <= i < |e.correlations| && e.correlations[i].rule == rule && (rule == MalwareProcessNetwork ==> e.correlations[i].verified);
      assert e.correlations[i] in e.correlations;
    }
  }

  /** Exactly the blockable address is proposed. */
  lemma ProposalIsBlockable(e: Evidence, scope: Option<Scope>, now: int, ip: Ip)
    ensures Proposal(e, scope, now) == Some(ip) <==> Blockable(e, scope, now, ip)
  {
    CorrelatedRule(e, RepeatedLoginFailures);
    CorrelatedRule(e, SuspiciousProcessNetwork);
    CorrelatedRule(e, MalwareProcessNetwork);
    CorrelatedRule(e, SustainedCpuTemporaryNetwork);
    if scope.Some? { ScopePermits(scope.value, ip); }
  }

  // ---- an approval --------------------------------------------------------------------

  function LiveRows(rows: seq<Action>): set<nat> {
    set i: nat | i < |rows| && rows[i].status in {Pending, Executed, CleanupFailed}
  }

  /** No action of the event is in force, and within a scope there is room and the target is not yet blocked. */
  predicate Free(w: World, scope: Option<Scope>, q: Request, ip: Ip) {
    && (forall i :: 0 <= i < |w.rows| && w.rows[i].event == q.event ==>
          w.rows[i].status !in {Pending, CleanupFailed} && (w.rows[i].status == Executed ==> w.rows[i].expires < q.now))
    && (scope.Some? ==>
          && |LiveRows(w.rows)| <= 9
          && forall i :: i in LiveRows(w.rows) ==> w.rows[i].target != ip)
  }

  predicate Admissible(w: World, scope: Option<Scope>, q: Request, ip: Ip) {
    Blockable(q.evidence, scope, q.now, ip) && (q.expected.Some? ==> q.expected.value == ip) && Free(w, scope, q, ip)
  }

  lemma OneMoreLive(rows: seq<Action>, a: Action)
    ensures |LiveRows(rows + [a])| == |LiveRows(rows)| + if Live(a.status) then 1 else 0
  {
    assert LiveRows(rows + [a]) == LiveRows(rows) + if Live(a.status) then {|rows|} else {};
  }

  lemma {:induction false} LiveRowsCounted(rows: seq<Action>)
    ensures |LiveRows(rows)| == |ActiveRows(rows)|
  {
    if rows != [] {
      var rest, last := rows[..|rows| - 1], rows[|rows| - 1];
      LiveRowsCounted(rest);
      OneMoreLive(rest, last);
      ActiveAppend(rest, last);
      assert rows == rest + [last];
    }
  }

  lemma FreeIsAdmitted(w: World, scope: Option<Scope>, q: Request, ip: Ip)
    requires Proposal(q.evidence, scope, q.now) == Some(ip)
    ensures Admit(w, scope, q) == Ok(ip) <==> (q.expected.Some? ==> q.expected.value == ip) && Free(w, scope, q, ip)
  {
    LiveRowsCounted(w.rows);
    forall i | 0 <= i < |w.rows| ensures w.rows[i] in w.rows {}
  }

  lemma AdmittedIsAdmissible(w: World, scope: Option<Scope>, q: Request, ip: Ip)
    ensures Admit(w, scope, q) == Ok(ip) <==> Admissible(w, scope, q, ip)
  {
    ProposalIsBlockable(q.evidence, scope, q.now, ip);
    if Proposal(q.evidence, scope, q.now) == Some(ip) { FreeIsAdmitted(w, scope, q, ip); }
  }

  /** The command succeeds; where the rule is verified, it is there and the query says so. */
  predicate Blocks(n: Native, verify: bool) { !n.block.raises && (verify ==> n.block.leaves && n.active == Answer(true)) }

  /** A rule that was there or not is gone, and where that is verified the query says so. */
  predicate Removes(n: Native, there: bool, verify: bool) {
    !n.undo.raises && (verify ==> n.removed == Answer(true) && !(there && n.undo.leaves))
  }

  /** The row an approval ends with. */
  function EndRow(q: Request, ip: Ip, n: Native, verify: bool): Action {
    Action(q.id, q.event, ip,
           if Blocks(n, verify) then Executed else if !verify || Removes(n, n.block.leaves, true) then Failed else CleanupFailed,
           q.now + 300, q.actor)
  }

  /** The rule is left by the block command, and not removed by a cleanup. */
  predicate Leaves(n: Native, verify: bool) { n.block.leaves && (Blocks(n, verify) || !verify || n.undo.leaves) }

  lemma LastRowSet(rows: seq<Action>, a: Action, status: Status)
    requires forall i :: 0 <= i < |rows| ==> rows[i].id != a.id
    ensures SetRows(rows + [a], a.id, status) == rows + [a.(status := status)]
  {}

  lemma BlockEnds(w: World, q: Request, ip: Ip, n: Native, verify: bool)
    requires FreshId(w, q.id)
    ensures var pending := Inserted(w, q, ip);
            var done := After(pending, BlockTrace(pending, q.id, n, verify));
            && done.rows == w.rows + [EndRow(q, ip, n, verify)]
            && done.native == if Leaves(n, verify) then w.native + {q.id} else w.native
    ensures BlockConfirmed(Inserted(w, q, ip), q.id, n, verify) <==> Blocks(n, verify)
  {
    var row := NewRow(q, ip);
    LastRowSet(w.rows, row, Executed);
    LastRowSet(w.rows, row, Failed);
    LastRowSet(w.rows, row.(status := Failed), CleanupFailed);
    assert w.native - {q.id} == w.native;
  }

  /**
   * An approval writes nothing unless there is an admissible address. If there is, it ends with one more
   * row for that address, which reads executed exactly when the rule is there and verified, failed when
   * its removal is verified, and else cleanup_failed; and no other rule is touched.
   */
  lemma ApproveOutcome(w: World, scope: Option<Scope>, verify: bool, q: Request, n: Native)
    requires FreshId(w, q.id)
    ensures var trace := ApproveTrace(w, scope, verify, q, n);
            && (trace == [] <==> forall ip :: !Admissible(w, scope, q, ip))
            && (Approved(w, scope, verify, q, n) <==> trace != [] && Blocks(n, verify))
            && forall ip :: Admissible(w, scope, q, ip) ==>
                 && After(w, trace).rows == w.rows + [EndRow(q, ip, n, verify)]
                 && After(w, trace).native == if Leaves(n, verify) then w.native + {q.id} else w.native
  {
    forall ip ensures Admit(w, scope, q) == Ok(ip) <==> Admissible(w, scope, q, ip) { AdmittedIsAdmissible(w, scope, q, ip); }
    if Admit(w, scope, q).Ok? {
      var ip := Admit(w, scope, q).value;
      BlockEnds(w, q, ip, n, verify);
      var pending := Inserted(w, q, ip);
      assert After(w, ApproveTrace(w, scope, verify, q, n)) == After(pending, BlockTrace(pending, q.id, n, verify));
      assert Admissible(w, scope, q, ip);
    }
  }

  // ---- an undo ------------------------------------------------------------------------

  /** An undo of a known row ends it undone exactly when its removal is verified, else cleanup_failed. */
  lemma UndoOutcome(w: World, verify: bool, id: ActionId, n: Native)
    ensures var trace := UndoTrace(w, verify, id, n);
            var w' := After(w, trace);
            if forall i :: 0 <= i < |w.rows| ==> w.rows[i].id != id then trace == []
            else
              && |w'.rows| == |w.rows|
              && (forall i :: 0 <= i < |w.rows| ==>
                    w'.rows[i] == if w.rows[i].id == id
                                  then w.rows[i].(status := if Removes(n, id in w.native, verify) then Undone else CleanupFailed)
                                  else w.rows[i])
              && w'.native == if n.undo.leaves then w.native else w.native - {id}
  {}

  // ---- a reconcile ----------------------------------------------------------------------

  /** A block that was never confirmed or never cleaned up, or is expired, or has left the scope. */
  predicate Due(a: Action, scope: Option<Scope>, now: int) {
    || a.status in {Pending, CleanupFailed}
    || (a.status == Executed && (now >= a.expires || (scope.Some? && !InScope(scope.value, a.target))))
  }

  /** How a due row and its rule end. */
  predicate Recovered(a: Action, a': Action, there: bool, there': bool, t: Turn) {
    if Removes(t.native, there, true)
    then a' == a.(status := if a.status == Executed && t.later >= a.expires then Expired else Status.Recovered) && !there'
    else a' == a.(status := CleanupFailed) && (there' <==> there && t.native.undo.leaves)
  }

  predicate Ended(a: Action, a': Action, there: bool, there': bool, scope: Option<Scope>, t: Turn) {
    if Due(a, scope, t.now) then Recovered(a, a', there, there', t) else a' == a && there' == there
  }

  lemma TurnEnds(w: World, scope: Option<Scope>, a: Action, t: Turn)
    requires Find(w.rows, a.id).Some? && Live(a.status)
    ensures var w' := After(w, RecoverTrace(w, scope, a, t));
            if Due(a, scope, t.now) then
              && w'.rows == SetRows(w.rows, a.id, RecoveredStatus(w, a, t))
              && w'.native == if t.native.undo.leaves then w.native else w.native - {a.id}
            else w' == w
  {
    if scope.Some? { ScopePermits(scope.value, a.target); }
    RecoverEnds(w, scope, a, t);
  }

  predicate RowEnded(w: World, w': World, i: nat, done: seq<Action>, scope: Option<Scope>, turn: ActionId -> Turn)
    requires i < |w.rows| == |w'.rows|
  {
    var a, a' := w.rows[i], w'.rows[i];
    if a in done then Ended(a, a', a.id in w.native, a.id in w'.native, scope, turn(a.id))
    else a' == a && (a.id in w'.native <==> a.id in w.native)
  }

  predicate RowsEnded(w: World, w': World, done: seq<Action>, scope: Option<Scope>, turn: ActionId -> Turn) {
    |w'.rows| == |w.rows| && forall i :: 0 <= i < |w.rows| ==> RowEnded(w, w', i, done, scope, turn)
  }

  lemma NextRowEnded(w: World, s: World, s': World, done: seq<Action>, a: Action, scope: Option<Scope>, turn: ActionId -> Turn, i: nat)
    requires DistinctIds(w.rows) && a in w.rows && Live(a.status) && a !in done && i < |w.rows|
    requires RowsEnded(w, s, done, scope, turn) && s' == After(s, RecoverTrace(s, scope, a, turn(a.id)))
    requires Find(s.rows, a.id).Some?
    ensures |s'.rows| == |w.rows| && RowEnded(w, s', i, done + [a], scope, turn)
  {
    TurnEnds(s, scope, a, turn(a.id));
    assert RowEnded(w, s, i, done, scope, turn);
    assert w.rows[i].id == a.id ==> w.rows[i] == a;
  }

  lemma NextTurnEnded(w: World, s: World, done: seq<Action>, a: Action, scope: Option<Scope>, turn: ActionId -> Turn)
    requires DistinctIds(w.rows) && a in w.rows && Live(a.status) && a !in done && RowsEnded(w, s, done, scope, turn)
    ensures RowsEnded(w, After(s, RecoverTrace(s, scope, a, turn(a.id))), done + [a], scope, turn)
  {
    var k :| 0 <= k < |w.rows| && w.rows[k] == a;
    assert RowEnded(w, s, k, done, scope, turn) && s.rows[k] in s.rows;
    TurnEnds(s, scope, a, turn(a.id));
    forall i: nat | i < |w.rows| { NextRowEnded(w, s, After(s, RecoverTrace(s, scope, a, turn(a.id))), done, a, scope, turn, i); }
  }

  lemma ReconcileEnds(w: World, scope: Option<Scope>, turn: ActionId -> Turn)
    requires DistinctIds(w.rows)
    ensures RowsEnded(w, After(w, ReconcileTrace(w, scope, turn)), ActiveRows(w.rows), scope, turn)
  {
    var todo := ActiveRows(w.rows);
    var turns := Recoveries(scope, todo, turn);
    var at := (i: nat, s: World) => i <= |todo| && RowsEnded(w, s, todo[..i], scope, turn);
    ActiveDistinct(w.rows);
    forall i: nat, s: World | i < |todo| && at(i, s) ensures at(i + 1, After(s, turns(i, s))) {
      assert todo[i] in todo && todo[..i + 1] == todo[..i] + [todo[i]];
      NextTurnEnded(w, s, todo[..i], todo[i], scope, turn);
    }
    TurnsReach(w, turns, |todo|, at);
    assert todo[..|todo|] == todo;
  }

  /**
   * How a reconcile ends, row by row and under any native failures: a row that is pending, awaits cleanup,
   * is expired at its turn or is out of scope has its rule removed, and reads recovered or expired, or
   * cleanup_failed if the removal is not verified; every other row and its rule are as they were.
   */
  lemma ReconcileOutcome(w: World, scope: Option<Scope>, turn: ActionId -> Turn)
    requires DistinctIds(w.rows)
    ensures var w' := After(w, ReconcileTrace(w, scope, turn));
            && |w'.rows| == |w.rows|
            && forall i :: 0 <= i < |w.rows| ==>
                 Ended(w.rows[i], w'.rows[i], w.rows[i].id in w.native, w.rows[i].id in w'.native, scope, turn(w.rows[i].id))
  {
    var w' := After(w, ReconcileTrace(w, scope, turn));
    ReconcileEnds(w, scope, turn);
    forall i | 0 <= i < |w.rows|
      ensures Ended(w.rows[i], w'.rows[i], w.rows[i].id in w.native, w.rows[i].id in w'.native, scope, turn(w.rows[i].id))
    {
      assert RowEnded(w, w', i, ActiveRows(w.rows), scope, turn) && w.rows[i] in w.rows;
    }
  }

  /** What still reads executed is unexpired and in scope. */
  lemma ExecutedIsInForce(w: World, scope: Option<Scope>, turn: ActionId -> Turn)
    requires DistinctIds(w.rows)
    ensures forall a :: a in After(w, ReconcileTrace(w, scope, turn)).rows && a.status == Executed ==>
              turn(a.id).now < a.expires && (scope.Some? ==> InScope(scope.value, a.target))
  {
    var w' := After(w, ReconcileTrace(w, scope, turn));
    ReconcileOutcome(w, scope, turn);
    forall a | a in w'.rows && a.status == Executed
      ensures turn(a.id).now < a.expires && (scope.Some? ==> InScope(scope.value, a.target))
    {
      var i :| 0 <= i < |w'.rows| && w'.rows[i] == a;
      assert Ended(w.rows[i], a, w.rows[i].id in w.native, w.rows[i].id in w'.native, scope, turn(w.rows[i].id));
    }
  }

  // ---- scopes ------------------------------------------------------------------------------

  /** A network of the whole width holds one address, every bit less twice as many, and a longer prefix none. */
  lemma NetworkSizes(n: Network)
    ensures var width := if n.v6 then 128 else 32;
            && (n.prefixLen == width ==> Size(n) == 1) && (n.prefixLen > width ==> Size(n) == 0)
            && (n.prefixLen < width ==> Size(n) == 2 * Size(n.(prefixLen := n.prefixLen + 1)))
  {}

  /** A scope needs networks to allow and networks to protect, and none that it allows may be everything. */
  lemma ScopeMade(allowed: seq<Network>, protected: seq<Network>)
    ensures MakeScope(allowed, protected).Ok? <==>
              1 <= |allowed| && 1 <= |protected| && forall i :: 0 <= i < |allowed| ==> allowed[i].prefixLen >= 1
    ensures MakeScope(allowed, protected).Ok? ==> MakeScope(allowed, protected).value == Scope(allowed, protected)
  {
    assert forall i :: 0 <= i < |allowed| ==> allowed[i] in allowed;
  }
}
