/** Approved, reversible address blocks: an action table whose rows are committed before and
    after calls to a native firewall that may fail with its rule present or absent. */
module Protection {
  import opened Wrappers
  import opened Containment

  type ActionId = nat
  type EventId = string

  // ---- what may be proposed -------------------------------------------------

  datatype Rule = RepeatedLoginFailures | MalwareProcessNetwork | SuspiciousProcessNetwork
                | SustainedCpuTemporaryNetwork | OtherRule

  datatype Correlation = Correlation(rule: Rule, verified: bool)

  datatype Connector = Windows | Sysmon | LinuxAuth | LocalProcess | Defender | OtherConnector

  /** The fields of a telemetry row that a proposal reads. `exactHost` and `shortHost` say whether
      the event's host name, and its first label, equal this device's; a timestamp or address
      that does not parse is None. */
  datatype Evidence = Evidence(done: bool, escalated: bool, replayed: bool, connector: Connector,
                               exactHost: bool, shortHost: bool, timestamp: Option<int>,
                               correlations: seq<Correlation>, src: Option<Ip>, dst: Option<Ip>)

  predicate HasRule(e: Evidence, rule: Rule) {
    exists c :: c in e.correlations && c.rule == rule && (rule == MalwareProcessNetwork ==> c.verified)
  }

  function Target(e: Evidence, scoped: bool): Option<Ip> {
    if HasRule(e, RepeatedLoginFailures) then e.src
    else if || HasRule(e, SuspiciousProcessNetwork)
            || HasRule(e, MalwareProcessNetwork)
            || (scoped && e.connector == LocalProcess && HasRule(e, SustainedCpuTemporaryNetwork)) then e.dst
    else None
  }

  predicate Fresh(e: Evidence, now: int) {
    e.timestamp.Some? && 0 <= now - e.timestamp.value <= 300
  }

  /** The address a row proposes to block, if any. */
  function Proposal(e: Evidence, scope: Option<Scope>, now: int): Option<Ip> {
    if !e.done || !e.escalated || e.replayed then None
    else if !(e.connector in {Windows, Sysmon} || (scope.Some? && e.connector in {LinuxAuth, LocalProcess})) then None
    else if scope.Some? && !(e.exactHost && Fresh(e, now)) then None
    else if !e.shortHost then None
    else match Target(e, scope.Some?)
      case None => None
      case Some(ip) =>
        if (if scope.Some? then Permits(scope.value, ip) else ip.isGlobal) then Some(ip) else None
  }

  // ---- the action table and the native table ---------------------------------

  datatype Status = Pending | Executed | Failed | CleanupFailed | Undone | Expired | Recovered | ExpiryDue

  datatype Action = Action(id: ActionId, event: EventId, target: Ip, status: Status, expires: int, actor: string)

  /** Everything that survives a crash: the rows in insertion order and the native rules present. */
  datatype World = World(rows: seq<Action>, native: set<ActionId>)

  predicate Live(status: Status) { status in {Pending, Executed, CleanupFailed} }

  predicate DistinctIds(rows: seq<Action>) {
    forall i, j :: 0 <= i < j < |rows| ==> rows[i].id != rows[j].id
  }

  /** The status column as `actions` reports it: an executed row past its expiry reads `ExpiryDue`. */
  function Shown(a: Action, now: int): Status {
    if a.status == Executed && a.expires < now then ExpiryDue else a.status
  }

  function SetRows(rows: seq<Action>, id: ActionId, status: Status): (r: seq<Action>)
    ensures |r| == |rows|
    ensures forall i :: 0 <= i < |rows| ==> r[i] == if rows[i].id == id then rows[i].(status := status) else rows[i]
  {
    seq(|rows|, i requires 0 <= i < |rows| => if rows[i].id == id then rows[i].(status := status) else rows[i])
  }

  function SetStatus(w: World, id: ActionId, status: Status): World {
    w.(rows := SetRows(w.rows, id, status))
  }

  function ActiveRows(rows: seq<Action>): (r: seq<Action>)
    ensures forall a :: a in r <==> a in rows && Live(a.status)
  {
    if rows == [] then []
    else if Live(rows[0].status) then [rows[0]] + ActiveRows(rows[1..]) else ActiveRows(rows[1..])
  }

  function Find(rows: seq<Action>, id: ActionId): (r: Option<Action>)
    ensures r.Some? <==> exists a :: a in rows && a.id == id
    ensures r.Some? ==> r.value in rows && r.value.id == id
  {
    if rows == [] then None else if rows[0].id == id then Some(rows[0]) else Find(rows[1..], id)
  }

  // ---- the unreliable native adapter ------------------------------------------

  /** A native command: it may raise, and either way `leaves` the rule present or not. */
  datatype Touch = Touch(raises: bool, leaves: bool)

  /** A native query: it may raise, and may answer no without cause, but never a false yes. */
  datatype Reply = Raise | Answer(yes: bool)

  /** How the native calls of one operation turn out. */
  datatype Native = Native(block: Touch, active: Reply, undo: Touch, removed: Reply)

  function NativeBlock(w: World, id: ActionId, n: Native): World {
    w.(native := if n.block.leaves then w.native + {id} else w.native - {id})
  }

  function NativeUndo(w: World, id: ActionId, n: Native): World {
    if n.undo.leaves then w else w.(native := w.native - {id})
  }

  predicate BlockConfirmed(w: World, id: ActionId, n: Native, verify: bool) {
    !n.block.raises && (verify ==> n.active == Answer(true) && id in NativeBlock(w, id, n).native)
  }

  predicate RemovalConfirmed(w: World, id: ActionId, n: Native, verify: bool) {
    !n.undo.raises && (verify ==> n.removed == Answer(true) && id !in NativeUndo(w, id, n).native)
  }

  // ---- the commits of each operation ------------------------------------------

  datatype Request = Request(event: EventId, evidence: Evidence, expected: Option<Ip>, actor: string,
                             id: ActionId, now: int)

  /** The target that `approve` goes on to block, or why it refuses before writing anything. */
  function Admit(w: World, scope: Option<Scope>, q: Request): Result<Ip> {
    match Proposal(q.evidence, scope, q.now)
    case None => Err("unsupported")
    case Some(target) =>
      if q.expected.Some? && target != q.expected.value then Err("changed")
      else if scope.Some? && (|ActiveRows(w.rows)| >= 10 || exists a :: a in w.rows && Live(a.status) && a.target == target) then
        Err("limit")
      else if exists a :: a in w.rows && a.event == q.event && Live(Shown(a, q.now)) then
        Err("active")
      else Ok(target)
  }

  function NewRow(q: Request, target: Ip): Action {
    Action(q.id, q.event, target, Pending, q.now + 300, q.actor)
  }

  function Inserted(w: World, q: Request, target: Ip): World { w.(rows := w.rows + [NewRow(q, target)]) }

  function CleanupTrace(w: World, id: ActionId, n: Native, verify: bool): seq<World> {
    if !verify then []
    else if RemovalConfirmed(w, id, n, true) then [NativeUndo(w, id, n)]
    else [NativeUndo(w, id, n), SetStatus(NativeUndo(w, id, n), id, CleanupFailed)]
  }

  function FailTrace(w: World, id: ActionId, n: Native, verify: bool): seq<World> {
    var failed := SetStatus(w, id, Failed);
    [failed] + CleanupTrace(failed, id, n, verify)
  }

  /** The native block of a pending row, and what becomes of the row. */
  function BlockTrace(pending: World, id: ActionId, n: Native, verify: bool): seq<World> {
    var blocked := NativeBlock(pending, id, n);
    [blocked] + if BlockConfirmed(pending, id, n, verify) then [SetStatus(blocked, id, Executed)] else FailTrace(blocked, id, n, verify)
  }

  function ApproveTrace(w: World, scope: Option<Scope>, verify: bool, q: Request, n: Native): seq<World> {
    match Admit(w, scope, q)
    case Err(_) => []
    case Ok(target) => [Inserted(w, q, target)] + BlockTrace(Inserted(w, q, target), q.id, n, verify)
  }

  /** The approval ends with an executed row. */
  predicate Approved(w: World, scope: Option<Scope>, verify: bool, q: Request, n: Native) {
    var target := Admit(w, scope, q);
    target.Ok? && BlockConfirmed(Inserted(w, q, target.value), q.id, n, verify)
  }

  function UndoTrace(w: World, verify: bool, id: ActionId, n: Native): seq<World> {
    if Find(w.rows, id).None? then []
    else
      var touched := NativeUndo(w, id, n);
      [touched, SetStatus(touched, id, if RemovalConfirmed(w, id, n, verify) then Undone else CleanupFailed)]
  }

  /** One row's turn in `reconcile`: when its clock is read, and how the native calls turn out. */
  datatype Turn = Turn(now: int, native: Native, later: int)

  predicate NeedsRecovery(scope: Option<Scope>, a: Action, now: int) {
    a.status != Executed || a.expires <= now || (scope.Some? && !Permits(scope.value, a.target))
  }

  function RecoverTrace(w: World, scope: Option<Scope>, a: Action, t: Turn): seq<World> {
    if !NeedsRecovery(scope, a, t.now) then []
    else
      var undo := UndoTrace(w, true, a.id, t.native);
      if undo != [] && RemovalConfirmed(w, a.id, t.native, true) then
        undo + [SetStatus(After(w, undo), a.id, if a.status == Executed && a.expires <= t.later then Expired else Recovered)]
      else undo
  }

  function Recoveries(scope: Option<Scope>, todo: seq<Action>, turn: ActionId -> Turn): Turns<World> {
    (i: nat, w: World) => if i < |todo| then RecoverTrace(w, scope, todo[i], turn(todo[i].id)) else []
  }

  /** One turn for each row that was live at the start. */
  function ReconcileTrace(w: World, scope: Option<Scope>, turn: ActionId -> Turn): seq<World> {
    UpTo(w, Recoveries(scope, ActiveRows(w.rows), turn), |ActiveRows(w.rows)|)
  }

  // ---- the service object ------------------------------------------------------

  class Protection {
    const store: Database<World>
    const scope: Option<Scope>
    const verify: bool

    constructor (store: Database<World>, scope: Option<Scope>, verify: bool)
      ensures this.store == store && this.scope == scope && this.verify == verify
    {
      this.store, this.scope, this.verify := store, scope, verify;
    }

    method SetActionStatus(id: ActionId, status: Status)
      modifies store
      ensures store.Reached(old(store.state), old(store.trail), [SetStatus(old(store.state), id, status)])
    {
      store.Commit(store.state.(rows := SetRows(store.state.rows, id, status)));
    }

    /** Remove the rule of a failed block; a removal that is not confirmed is recorded. */
    method Cleanup(id: ActionId, n: Native)
      modifies store
      ensures store.Reached(old(store.state), old(store.trail), CleanupTrace(old(store.state), id, n, verify))
    {
      if verify {
        var removed := RemovalConfirmed(store.state, id, n, true);
        store.Commit(NativeUndo(store.state, id, n));
        if !removed { SetActionStatus(id, CleanupFailed); }
      }
    }

    method Approve(q: Request, n: Native) returns (r: Result<ActionId>)
      modifies store
      ensures store.Reached(old(store.state), old(store.trail), ApproveTrace(old(store.state), scope, verify, q, n))
      ensures r.Ok? <==> Approved(old(store.state), scope, verify, q, n)
      ensures r.Ok? ==> r.value == q.id
    {
      ghost var start, trail := store.state, store.trail;
      var admitted := Admit(store.state, scope, q);
      if admitted.Err? { return Err(admitted.message); }
      store.Commit(store.state.(rows := store.state.rows + [Action(q.id, q.event, admitted.value, Pending, q.now + 300, q.actor)]));
      ghost var pending := store.state;
      var blocked := Block(q.id, n);
      store.Chain(start, trail, [pending], BlockTrace(pending, q.id, n, verify));
      if !blocked { return Err("failed"); }
      return Ok(q.id);
    }

    method Block(id: ActionId, n: Native) returns (ok: bool)
      modifies store
      ensures store.Reached(old(store.state), old(store.trail), BlockTrace(old(store.state), id, n, verify))
      ensures ok == BlockConfirmed(old(store.state), id, n, verify)
    {
      ghost var start, trail := store.state, store.trail;
      ok := BlockConfirmed(store.state, id, n, verify);
      store.Commit(NativeBlock(store.state, id, n));
      ghost var blocked := store.state;
      if ok {
        SetActionStatus(id, Executed);
        store.Chain(start, trail, [blocked], [store.state]);
      } else {
        Fail(id, n);
        store.Chain(start, trail, [blocked], FailTrace(blocked, id, n, verify));
      }
    }

    /** The row of a failed block reads failed before its cleanup begins. */
    method Fail(id: ActionId, n: Native)
      modifies store
      ensures store.Reached(old(store.state), old(store.trail), FailTrace(old(store.state), id, n, verify))
    {
      ghost var start, trail := store.state, store.trail;
      SetActionStatus(id, Failed);
      ghost var failed := store.state;
      Cleanup(id, n);
      store.Chain(start, trail, [failed], CleanupTrace(failed, id, n, verify));
    }

    method Undo(id: ActionId, n: Native) returns (r: Result<ActionId>)
      modifies store
      ensures store.Reached(old(store.state), old(store.trail), UndoTrace(old(store.state), verify, id, n))
      ensures r.Ok? <==> Find(old(store.state).rows, id).Some? && RemovalConfirmed(old(store.state), id, n, verify)
    {
      var row := Find(store.state.rows, id);
      if row.None? { return Err("unknown"); }
      var removed := RemovalConfirmed(store.state, id, n, verify);
      store.Commit(NativeUndo(store.state, id, n));
      if !removed {
        SetActionStatus(id, CleanupFailed);
        return Err("failed");
      }
      SetActionStatus(id, Undone);
      return Ok(id);
    }

    /** One row's turn: undo it if it is unconfirmed, expired or out of scope; failures stay visible. */
    method Recover(row: Action, t: Turn)
      requires verify
      modifies store
      ensures store.Reached(old(store.state), old(store.trail), RecoverTrace(old(store.state), scope, row, t))
    {
      ghost var start, trail := store.state, store.trail;
      if NeedsRecovery(scope, row, t.now) {
        var undone := Undo(row.id, t.native);
        if undone.Ok? {
          ghost var undo := UndoTrace(start, true, row.id, t.native);
          SetActionStatus(row.id, if row.status == Executed && row.expires <= t.later then Expired else Recovered);
          store.Chain(start, trail, undo, [store.state]);
        }
      }
    }

    /** The next live row, after those before it. */
    method RecoverNext(todo: seq<Action>, turn: ActionId -> Turn, i: nat, ghost start: World, ghost trail: seq<World>)
      requires verify && i < |todo| && store.Reached(start, trail, UpTo(start, Recoveries(scope, todo, turn), i))
      modifies store
      ensures store.Reached(start, trail, UpTo(start, Recoveries(scope, todo, turn), i + 1))
    {
      Recover(todo[i], turn(todo[i].id));
      store.Turn(start, trail, Recoveries(scope, todo, turn), i);
    }

    method Reconcile(turn: ActionId -> Turn)
      modifies store
      ensures store.Reached(old(store.state), old(store.trail), if verify then ReconcileTrace(old(store.state), scope, turn) else [])
    {
      if !verify { return; }
      var todo := ActiveRows(store.state.rows);
      ghost var start, trail := store.state, store.trail;
      for i := 0 to |todo|
        invariant store.Reached(start, trail, UpTo(start, Recoveries(scope, todo, turn), i))
      {
        RecoverNext(todo, turn, i, start, trail);
      }
    }
  }
}
