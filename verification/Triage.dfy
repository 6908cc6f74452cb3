/** The triage ladder: guardrails, a cheap prefilter over the verdict history, then the model. */
module Triage {
  import opened Wrappers
  import opened VerdictMemory
  import opened MemoryRuns

  datatype RuleName = PrivilegeExpansion | Other(name: string)

  /** Checking a rule or a fact against an event may raise, which counts as no match. */
  datatype Match = Fires | Silent | Raises

  datatype Rail = Rail(name: RuleName, result: Match)

  /**
   * An event with what the deterministic checks say of it: each rule in order, each standing fact
   * of its host, whether it carries native telemetry, and whether that is routine.
   */
  datatype Event = Event(signature: string, context: string, severity: real, criticality: real,
                         native: bool, routine: bool, rails: seq<Rail>, facts: seq<Match>)

  datatype Tier = ByGuardrail | ByPrefilter | ByModel

  datatype Verdict = Verdict(decision: Decision, tier: Tier, score: real)

  datatype Confidence = Finite(value: real) | NotFinite | Boolean

  datatype Answer = Error | Says(decision: Decision, confidence: Confidence)

  // ---- guardrails ------------------------------------------------------------------------

  /** The first rule that fires. */
  function FirstHit(rails: seq<Rail>): (r: Option<RuleName>)
    ensures r.None? <==> forall x :: x in rails ==> x.result != Fires
  {
    if rails == [] then None else if rails[0].result == Fires then Some(rails[0].name) else FirstHit(rails[1..])
  }

  /** Only a privilege-expansion hit can be handed to the model, by a fact that corroborates it. */
  predicate Downgraded(e: Event, hit: RuleName) { hit == PrivilegeExpansion && Fires in e.facts }

  // ---- prefilter ---------------------------------------------------------------------------

  /** The signature whose history counts: the exact context when there is one. */
  function Key(e: Event): string { if e.context != "" then e.context else e.signature }

  /** Native telemetry without an exact context has no history worth trusting. */
  predicate Comparable(e: Event) { e.context != "" || !e.native }

  function FalsePositiveRate(c: Counts): real {
    if c.total == 0 then 0.0 else (c.suppressed + c.falseAlarms) as real / c.total as real
  }

  function Modifier(e: Event, c: Counts): real {
    1.0
    - (if c.total >= 5 && Comparable(e) then 0.5 * FalsePositiveRate(c) else 0.0)
    + 0.3 * (if c.overruled < 3 then c.overruled else 3) as real
  }

  function Weight(e: Event): (r: real)
    ensures e.severity >= 0.0 && e.criticality >= 0.0 ==> r >= 0.0
  {
    e.severity * e.criticality
  }

  /** The weighted severity, kept between 0 and 10. */
  function Weighted(weight: real, modifier: real): (r: real)
    ensures 0.0 <= r <= 10.0
  {
    var raw := weight * modifier;
    if raw < 0.0 then 0.0 else if raw > 10.0 then 10.0 else raw
  }

  function Score(e: Event, c: Counts): real { Weighted(Weight(e), Modifier(e, c)) }

  function Prefilter(e: Event, rows: seq<Row>): (Decision, real) {
    var c := Aggregate(rows, Key(e));
    var broad := if e.context != "" then Aggregate(rows, e.signature).overruled else 0;
    var score := Score(e, c);
    if e.routine then (Suppress, score)
    else if score >= 7.0 then (Escalate, score)
    else if score < 3.0 && c.total >= 5 && c.escalated <= c.falseAlarms && c.overruled == 0 && Comparable(e) && broad == 0 then
      (Suppress, score)
    else (Ambiguous, score)
  }

  // ---- the model ------------------------------------------------------------------------------

  /** What the model's answer is worth; `downgraded` is the rail a fact handed over, if any. */
  function ModelDecision(e: Event, answer: Answer, downgraded: Option<RuleName>): Decision {
    if answer.Error? || !answer.confidence.Finite? then Escalate
    else if answer.decision == Suppress && answer.confidence.value < 0.7 then Escalate
    else if answer.decision == Suppress && FirstHit(e.rails).Some? && FirstHit(e.rails) != downgraded then Escalate
    else answer.decision
  }

  function Judged(e: Event, rows: seq<Row>, answer: Answer): Verdict {
    var hit, pre := FirstHit(e.rails), Prefilter(e, rows);
    if hit.Some? && !Downgraded(e, hit.value) then Verdict(Escalate, ByGuardrail, 10.0)
    else if hit.Some? then Verdict(ModelDecision(e, answer, hit), ByModel, pre.1)
    else if pre.0 != Ambiguous then Verdict(pre.0, ByPrefilter, pre.1)
    else Verdict(ModelDecision(e, answer, None), ByModel, pre.1)
  }

  // ---- counters ---------------------------------------------------------------------------------

  datatype Stats = Stats(total: nat, byPrefilter: nat, byModel: nat, byGuardrail: nat, downgraded: nat, escalated: nat, suppressed: nat)

  function Tally(s: Stats, e: Event, v: Verdict): Stats {
    Stats(s.total + 1,
          s.byPrefilter + if v.tier == ByPrefilter then 1 else 0,
          s.byModel + if v.tier == ByModel then 1 else 0,
          s.byGuardrail + if v.tier == ByGuardrail then 1 else 0,
          s.downgraded + if v.tier == ByModel && FirstHit(e.rails).Some? then 1 else 0,
          s.escalated + if v.decision == Escalate then 1 else 0,
          s.suppressed + if v.decision == Escalate then 0 else 1)
  }

  // ---- the engine ----------------------------------------------------------------------------------

  class TriageEngine {
    const memory: Memory
    var stats: Stats

    constructor (memory: Memory)
      ensures this.memory == memory && stats == Stats(0, 0, 0, 0, 0, 0, 0)
    {
      this.memory := memory;
      this.stats := Stats(0, 0, 0, 0, 0, 0, 0);
    }

    ghost predicate Ready()
      reads memory, memory.cache.Values
    {
      memory.Valid() && Exact(memory.View())
    }

    method Recall(s: string) returns (c: Counts)
      requires Ready()
      modifies memory
      ensures Ready() && memory.rows == old(memory.rows) && fresh(memory.cache.Values - old(memory.cache.Values))
      ensures c == Aggregate(memory.rows, s)
    {
      AskExact(memory.View(), s, None);
      var history := memory.History(s, None);
      c := history.Value();
    }

    method ScoreEvent(e: Event) returns (score: real)
      requires Ready()
      modifies memory
      ensures Ready() && memory.rows == old(memory.rows) && fresh(memory.cache.Values - old(memory.cache.Values))
      ensures score == Score(e, Aggregate(memory.rows, Key(e)))
    {
      var history := Recall(if e.context != "" then e.context else e.signature);
      var modifier := 1.0;
      if history.total >= 5 && (e.context != "" || !e.native) {
        modifier := modifier - 0.5 * FalsePositiveRate(history);
      }
      modifier := modifier + 0.3 * (if history.overruled < 3 then history.overruled else 3) as real;
      assert modifier == Modifier(e, history);
      score := Weighted(Weight(e), modifier);
    }

    method RunPrefilter(e: Event) returns (decision: Decision, score: real)
      requires Ready()
      modifies memory
      ensures Ready() && memory.rows == old(memory.rows) && fresh(memory.cache.Values - old(memory.cache.Values))
      ensures (decision, score) == Prefilter(e, memory.rows)
    {
      score := ScoreEvent(e);
      var history := Recall(if e.context != "" then e.context else e.signature);
      var broad := 0;
      if e.context != "" {
        var whole := Recall(e.signature);
        broad := whole.overruled;
      }
      if e.routine { return Suppress, score; }
      if score >= 7.0 { return Escalate, score; }
      if score < 3.0 && history.total >= 5 && history.escalated - history.falseAlarms <= 0 && history.overruled == 0
         && (e.context != "" || !e.native) && broad == 0 {
        return Suppress, score;
      }
      return Ambiguous, score;
    }

    /** One event, with what the model would answer; the verdict is recorded before it is returned. */
    method Triage(e: Event, answer: Answer) returns (v: Verdict)
      requires Ready()
      modifies this, memory, memory.cache.Values
      ensures Ready() && v == Judged(e, old(memory.rows), answer) && stats == Tally(old(stats), e, v)
      ensures memory.rows == RecordedRows(old(memory.rows), e.signature, e.context, v.decision)
    {
      v := Judge(e, answer);
      Count(e, v);
      Record(e, v);
    }

    method Judge(e: Event, answer: Answer) returns (v: Verdict)
      requires Ready()
      modifies memory
      ensures Ready() && memory.rows == old(memory.rows) && fresh(memory.cache.Values - old(memory.cache.Values))
      ensures v == Judged(e, memory.rows, answer)
    {
      var hit := FirstHit(e.rails);
      if hit.Some? && !Downgraded(e, hit.value) { return Verdict(Escalate, ByGuardrail, 10.0); }
      var decision, score := RunPrefilter(e);
      if hit.Some? {
        v := Verdict(ModelDecision(e, answer, hit), ByModel, score);
      } else if decision != Ambiguous {
        v := Verdict(decision, ByPrefilter, score);
      } else {
        v := Verdict(ModelDecision(e, answer, None), ByModel, score);
      }
    }

    method Count(e: Event, v: Verdict)
      modifies this`stats
      ensures stats == Tally(old(stats), e, v)
    {
      match v.tier {
        case ByGuardrail => stats := stats.(byGuardrail := stats.byGuardrail + 1);
        case ByPrefilter => stats := stats.(byPrefilter := stats.byPrefilter + 1);
        case ByModel =>
          if FirstHit(e.rails).Some? { stats := stats.(downgraded := stats.downgraded + 1); }
          stats := stats.(byModel := stats.byModel + 1);
      }
      stats := stats.(total := stats.total + 1);
      if v.decision == Escalate { stats := stats.(escalated := stats.escalated + 1); }
      else { stats := stats.(suppressed := stats.suppressed + 1); }
    }

    method Record(e: Event, v: Verdict)
      requires Ready()
      modifies memory, memory.cache.Values
      ensures Ready() && memory.rows == RecordedRows(old(memory.rows), e.signature, e.context, v.decision)
    {
      RecordExact(memory.View(), e.signature, e.context, v.decision, None);
      memory.RecordVerdict(e.signature, e.context, v.decision, None);
    }
  }
}
