/** What can be suppressed, by whom, and how long an analyst's correction holds. */
module TriageRuns {
  import opened Wrappers
  import opened VerdictMemory
  import opened MemoryRuns
  import opened Triage

  predicate Confident(answer: Answer) {
    answer.Says? && answer.decision == Suppress && answer.confidence.Finite? && answer.confidence.value >= 0.7
  }

  // ---- who may suppress ------------------------------------------------------------------

  /**
   * Whatever the model says, a verdict suppresses only where no rule fires, or where the first rule
   * is privilege expansion, a standing fact corroborates it and the model is sure.
   */
  lemma SuppressionNeedsAuthority(e: Event, rows: seq<Row>, answer: Answer)
    ensures var hit, pre := FirstHit(e.rails), Prefilter(e, rows).0;
            Judged(e, rows, answer).decision == Suppress <==>
            || (hit.None? && (pre == Suppress || (pre == Ambiguous && Confident(answer))))
            || (hit == Some(PrivilegeExpansion) && Fires in e.facts && Confident(answer))
  {}

  /** Past the first hit no other rule is asked: a corroborated first rule silences the ones behind it. */
  lemma LaterRulesDoNotVeto(e: Event, rows: seq<Row>, answer: Answer, others: seq<Rail>)
    requires e.rails == [Rail(PrivilegeExpansion, Fires)] + others && Fires in e.facts && Confident(answer)
    ensures Judged(e, rows, answer).decision == Suppress
  {}

  /** A rule that raises is passed over, so the rule behind it is the one that counts. */
  lemma {:induction false} BrokenRuleIsSkipped(before: seq<Rail>, x: Rail, after: seq<Rail>)
    requires x.result != Fires
    ensures FirstHit(before + [x] + after) == FirstHit(before + after)
  {
    if before == [] { assert [] + [x] + after == [x] + after && ([x] + after)[1..] == after && [] + after == after; }
    else {
      assert (before + [x] + after)[1..] == before[1..] + [x] + after && (before + after)[1..] == before[1..] + after;
      BrokenRuleIsSkipped(before[1..], x, after);
    }
  }

  // ---- what the prefilter may suppress --------------------------------------------------------

  /** Every verdict on the signature was benign: a suppression kept, or an escalation reversed. */
  predicate AlwaysBenign(rows: seq<Row>, s: string) {
    forall r :: r in rows && r.signature == s ==> if r.decision == Suppress then !Overruled(r) else Overruled(r)
  }

  /** Outside routine telemetry the cheap tier suppresses exactly on a long, clean, exact history. */
  lemma CheapSuppression(e: Event, rows: seq<Row>)
    requires !e.routine
    ensures Prefilter(e, rows).0 == Suppress <==>
            && Score(e, Aggregate(rows, Key(e))) < 3.0 && Aggregate(rows, Key(e)).total >= 5 && Comparable(e)
            && AlwaysBenign(rows, Key(e)) && !Reversed(rows, e.signature)
  {
    AggregateMeans(rows, Key(e));
    AggregateMeans(rows, e.signature);
    var c := Aggregate(rows, Key(e));
    assert c.escalated <= c.falseAlarms <==> c.falseAlarms == c.escalated;
    if AlwaysBenign(rows, Key(e)) { assert c.overruled == 0 && c.falseAlarms == c.escalated; }
  }

  /**
   * Feedback lasts: once a suppression of a signature has been overruled, no later verdicts, and no
   * labels on other signatures, let the cheap tier suppress another event of it, whatever its context.
   */
  lemma FeedbackLasts(e: Event, rows: seq<Row>, commits: seq<Commit>)
    requires !e.routine && exists r :: r in rows && r.signature == e.signature && r.decision == Suppress
    requires forall i :: 0 <= i < |commits| ==> !Reaches(commits[i], e.signature)
    ensures Prefilter(e, Commits(LabelledRows(rows, e.signature, "overruled"), commits)).0 != Suppress
  {
    var labelled := LabelledRows(rows, e.signature, "overruled");
    OverruleReverses(rows, e.signature);
    ReversalStands(labelled, commits, e.signature);
    CheapSuppression(e, Commits(labelled, commits));
  }

  /** The same reversal of the exact context alone is enough for events of that context. */
  lemma ContextFeedbackLasts(e: Event, rows: seq<Row>, commits: seq<Commit>)
    requires !e.routine && e.context != "" && exists r :: r in rows && r.signature == e.context && r.decision == Suppress
    requires forall i :: 0 <= i < |commits| ==> !Reaches(commits[i], e.context)
    ensures Prefilter(e, Commits(LabelledRows(rows, e.context, "overruled"), commits)).0 != Suppress
  {
    var labelled := LabelledRows(rows, e.context, "overruled");
    OverruleReverses(rows, e.context);
    ReversalStands(labelled, commits, e.context);
    var table := Commits(labelled, commits);
    CheapSuppression(e, table);
    assert AlwaysBenign(table, e.context) ==> !Reversed(table, e.context);
  }

  /** More reversed suppressions never lower a score. */
  lemma ReversalRaisesScore(e: Event, c: Counts, more: nat)
    requires e.severity >= 0.0 && e.criticality >= 0.0
    ensures Score(e, c.(overruled := c.overruled + more)) >= Score(e, c)
  {
    var d := c.(overruled := c.overruled + more);
    assert FalsePositiveRate(d) == FalsePositiveRate(c);
    WeightedMonotone(Weight(e), Modifier(e, c), Modifier(e, d));
  }

  lemma WeightedMonotone(weight: real, x: real, y: real)
    requires weight >= 0.0 && x <= y
    ensures Weighted(weight, x) <= Weighted(weight, y)
  {
    assert weight * (y - x) >= 0.0;
  }

  // ---- counters ---------------------------------------------------------------------------------

  datatype Case = Case(event: Event, rows: seq<Row>, answer: Answer)

  function Tallied(cases: seq<Case>): Stats
    decreases |cases|
  {
    if cases == [] then Stats(0, 0, 0, 0, 0, 0, 0)
    else
      var x := cases[|cases| - 1];
      Tally(Tallied(cases[..|cases| - 1]), x.event, Judged(x.event, x.rows, x.answer))
  }

  /** Every event is counted once by tier and once by outcome. */
  lemma {:induction false} EveryEventIsCounted(cases: seq<Case>)
    ensures var s := Tallied(cases);
            && s.total == |cases| == s.byPrefilter + s.byModel + s.byGuardrail
            && s.total == s.escalated + s.suppressed
            && s.downgraded <= s.byModel && s.byGuardrail <= s.escalated
    decreases |cases|
  {
    if cases != [] { EveryEventIsCounted(cases[..|cases| - 1]); }
  }

  // ---- the score, and what it decides -----------------------------------------------------------

  /** The share of verdicts that turned out benign: suppressions, and escalations an analyst reversed. */
  lemma RateIsTheBenignShare(rows: seq<Row>, s: string)
    ensures var c := Aggregate(rows, s);
            IsShare(FalsePositiveRate(c), (c.suppressed + c.falseAlarms) as real, c.total as real)
  {
    var c := Aggregate(rows, s);
    var part, whole := (c.suppressed + c.falseAlarms) as real, c.total as real;
    assert 0.0 <= part <= whole;
    if c.total > 0 {
      ShareOf(part, whole);
      assert FalsePositiveRate(c) == part / whole;
    }
  }

  /** The share that `part` is of `whole`, 0 of nothing. */
  predicate IsShare(x: real, part: real, whole: real) {
    if whole == 0.0 then x == 0.0 else x * whole == part && 0.0 <= x <= 1.0
  }

  lemma ShareOf(part: real, whole: real)
    requires 0.0 <= part <= whole && whole > 0.0
    ensures IsShare(part / whole, part, whole)
  {}

  /** What five or more comparable verdicts take off, and what reversed suppressions add. */
  function Trust(e: Event, c: Counts): real {
    if c.total <= 4 || (e.native && e.context == "") then 1.0 else 1.0 - FalsePositiveRate(c) / 2.0
  }

  function Alarm(c: Counts): real { if c.overruled == 0 then 0.0 else if c.overruled == 1 then 0.3 else if c.overruled == 2 then 0.6 else 0.9 }

  /** The score is severity by criticality, halved at most by a benign history and almost doubled by reversed
      suppressions, within 0 and 10. */
  lemma ScoreMeans(e: Event, c: Counts)
    ensures var raw := e.severity * e.criticality * (Trust(e, c) + Alarm(c));
            Score(e, c) == if raw > 10.0 then 10.0 else if raw < 0.0 then 0.0 else raw
  {
    assert Modifier(e, c) == Trust(e, c) + Alarm(c);
  }

  /** Without a rule that fires, routine telemetry is suppressed and a score of 7 or more escalated, whatever
      the model would say. */
  lemma CheapTierDecides(e: Event, rows: seq<Row>, answer: Answer)
    requires forall i :: 0 <= i < |e.rails| ==> e.rails[i].result != Fires
    ensures var c := Aggregate(rows, if e.context == "" then e.signature else e.context);
            var v := Judged(e, rows, answer);
            && v.score == Score(e, c)
            && (e.routine ==> v.decision == Suppress && v.tier == ByPrefilter)
            && (!e.routine && Score(e, c) >= 7.0 ==> v.decision == Escalate && v.tier == ByPrefilter)
            && (v.tier == ByPrefilter && v.decision == Escalate ==> !e.routine && Score(e, c) >= 7.0)
            && (v.tier == ByModel ==> !e.routine && Score(e, c) < 7.0)
  {
    assert forall x :: x in e.rails ==> x.result != Fires;
  }

  /** The tiers: a rule that is not handed over decides at score 10, a handed-over one and an ambiguous event go
      to the model, and the model's answer counts nowhere else. */
  lemma WhoDecides(e: Event, rows: seq<Row>, answer: Answer, other: Answer)
    ensures var v, hit := Judged(e, rows, answer), FirstHit(e.rails);
            && (v.tier == ByGuardrail <==> hit.Some? && (hit.value != PrivilegeExpansion || Fires !in e.facts))
            && (v.tier == ByGuardrail ==> v.decision == Escalate && v.score == 10.0)
            && (v.tier == ByModel <==>
                  if hit.Some? then hit.value == PrivilegeExpansion && Fires in e.facts else Prefilter(e, rows).0 == Ambiguous)
            && (v.tier != ByModel ==> Judged(e, rows, other) == v)
            && (v.tier == ByModel && (answer.Error? || !answer.confidence.Finite?) ==> v.decision == Escalate)
            && (v.tier == ByModel && answer.Says? && answer.decision == Escalate ==> v.decision == Escalate)
  {}

  /** Each event adds one to the total, to the counter of its tier and to that of its outcome; and one handed over by a
      fact, which is one that the model decides although a rule fires, is counted as such. */
  lemma OneEventCounted(s: Stats, e: Event, v: Verdict)
    ensures var s' := Tally(s, e, v);
            && s'.total == s.total + 1
            && s'.byGuardrail == (if v.tier == ByGuardrail then s.byGuardrail + 1 else s.byGuardrail)
            && s'.byPrefilter == (if v.tier == ByPrefilter then s.byPrefilter + 1 else s.byPrefilter)
            && s'.byModel == (if v.tier == ByModel then s.byModel + 1 else s.byModel)
            && s'.escalated == (if v.decision == Escalate then s.escalated + 1 else s.escalated)
            && s'.suppressed == (if v.decision != Escalate then s.suppressed + 1 else s.suppressed)
            && (s'.downgraded == s.downgraded + 1 <==> v.tier == ByModel && exists i :: 0 <= i < |e.rails| && e.rails[i].result == Fires)
            && s.downgraded <= s'.downgraded <= s.downgraded + 1
  {
    assert forall i :: 0 <= i < |e.rails| ==> e.rails[i] in e.rails;
  }
}
