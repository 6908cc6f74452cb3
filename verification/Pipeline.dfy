/** The single analysis worker: claim, triage, audit and finish, each its own commit. */
module Pipeline {
  import opened Wrappers

  type EventId = string

  datatype Decision = Suppress | Escalate

  datatype Tier = Guardrail | Prefilter | Llm

  datatype Verdict = Verdict(decision: Decision, tier: Tier, score: real)

  datatype State = Pending | Processing | Done | Failed

  /** A telemetry row; `verdict` is what its stored analysis says. */
  datatype Row = Row(event: EventId, state: State, verdict: Option<Verdict>)

  datatype Entry = Entry(event: EventId, verdict: Verdict)

  /** A verdict as the signature history counts it. */
  datatype Note = Note(event: EventId, decision: Decision)

  datatype Disk = Disk(rows: seq<Row>, audit: seq<Entry>, history: seq<Note>)

  /** The newest audited verdict of an event. */
  function VerdictFor(audit: seq<Entry>, e: EventId): (r: Option<Verdict>)
    ensures r.Some? ==> Entry(e, r.value) in audit
    ensures r.None? ==> forall a :: a in audit ==> a.event != e
  {
    if audit == [] then None
    else if audit[|audit| - 1].event == e then Some(audit[|audit| - 1].verdict)
    else VerdictFor(audit[..|audit| - 1], e)
  }

  /** What one attempt meets: each part that may raise does or does not, and the model may say anything. */
  datatype Trial = Trial(loads: bool, answer: Option<Verdict>, logs: bool, audits: bool, plans: bool)

  predicate Claimable(d: Disk, at: nat) { at < |d.rows| && d.rows[at].state == Pending }

  function Claimed(d: Disk, at: nat): Disk
    requires at < |d.rows|
  {
    d.(rows := d.rows[at := d.rows[at].(state := Processing)])
  }

  function FailedAt(d: Disk, at: nat): Disk
    requires at < |d.rows|
  {
    d.(rows := d.rows[at := d.rows[at].(state := Failed)])
  }

  function Finished(d: Disk, at: nat, v: Verdict): Disk
    requires at < |d.rows|
  {
    d.(rows := d.rows[at := d.rows[at].(state := Done, verdict := Some(v))])
  }

  function Noted(d: Disk, e: EventId, v: Verdict): Disk { d.(history := d.history + [Note(e, v.decision)]) }

  function Audited(d: Disk, e: EventId, v: Verdict): Disk { d.(audit := d.audit + [Entry(e, v)]) }

  function EndTrace(d: Disk, at: nat, v: Verdict, t: Trial): seq<Disk>
    requires at < |d.rows|
  {
    [if t.plans then Finished(d, at, v) else FailedAt(d, at)]
  }

  /** The commits after the claim. */
  function WorkTrace(d: Disk, at: nat, t: Trial): seq<Disk>
    requires at < |d.rows|
  {
    var e := d.rows[at].event;
    var existing := VerdictFor(d.audit, e);
    if !t.loads then [FailedAt(d, at)]
    else if existing.Some? then EndTrace(d, at, existing.value, t)
    else if t.answer.None? then [FailedAt(d, at)]
    else
      var noted := Noted(d, e, t.answer.value);
      if !t.logs || !t.audits then [noted, FailedAt(noted, at)]
      else
        var audited := Audited(noted, e, t.answer.value);
        [noted, audited] + EndTrace(audited, at, t.answer.value, t)
  }

  function ProcessTrace(d: Disk, at: nat, t: Trial): seq<Disk> {
    if !Claimable(d, at) then [] else [Claimed(d, at)] + WorkTrace(Claimed(d, at), at, t)
  }

  class Worker {
    const store: Database<Disk>

    constructor (store: Database<Disk>)
      ensures this.store == store
    {
      this.store := store;
    }

    /** Process the row the queue offers; `at` is its place, any pending one. */
    method ProcessOne(at: nat, t: Trial) returns (worked: bool)
      modifies store
      ensures store.Reached(old(store.state), old(store.trail), ProcessTrace(old(store.state), at, t))
      ensures worked == Claimable(old(store.state), at)
    {
      if !(at < |store.state.rows| && store.state.rows[at].state == Pending) { return false; }
      ghost var start, trail := store.state, store.trail;
      store.Commit(store.state.(rows := store.state.rows[at := store.state.rows[at].(state := Processing)]));
      ghost var claimed := store.state;
      Work(at, t);
      store.Chain(start, trail, [claimed], WorkTrace(claimed, at, t));
      return true;
    }

    method Work(at: nat, t: Trial)
      requires at < |store.state.rows|
      modifies store
      ensures store.Reached(old(store.state), old(store.trail), WorkTrace(old(store.state), at, t))
    {
      ghost var start, trail := store.state, store.trail;
      var e := store.state.rows[at].event;
      if !t.loads { Fail(at); return; }
      var verdict := VerdictFor(store.state.audit, e);
      if verdict.None? {
        verdict := t.answer;
        if verdict.None? { Fail(at); return; }
        store.Commit(store.state.(history := store.state.history + [Note(e, verdict.value.decision)]));
        ghost var noted := store.state;
        if !t.logs || !t.audits { Fail(at); return; }
        store.Commit(store.state.(audit := store.state.audit + [Entry(e, verdict.value)]));
        assert store.trail == trail + [noted, store.state];
      }
      if !t.plans { Fail(at); return; }
      store.Commit(store.state.(rows := store.state.rows[at := store.state.rows[at].(state := Done, verdict := verdict)]));
    }

    method Fail(at: nat)
      requires at < |store.state.rows|
      modifies store
      ensures store.Reached(old(store.state), old(store.trail), [FailedAt(old(store.state), at)])
    {
      store.Commit(store.state.(rows := store.state.rows[at := store.state.rows[at].(state := Failed)]));
    }
  }
}
