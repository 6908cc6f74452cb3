/** The review that issues a brief, the guardrails, and the re-check at execution agree. */
module L2Agreement {
  import opened Wrappers
  import opened L2Evidence

  // ---- the verified-critical brief -------------------------------------------------

  lemma CriticalAssertionsHold(facts: seq<Row>, required: seq<nat>)
    requires |required| == 2 && forall k :: 0 <= k < 2 ==> required[k] < |facts|
    ensures var xs := CriticalAssertions(facts, required);
            (forall x :: x in xs ==> AssertionOk(x, facts)) && forall i :: i in required ==> Cites(xs, i)
  {
    var xs := CriticalAssertions(facts, required);
    assert xs[0] in xs && xs[1] in xs;
    assert "event_type" in FIELDS;
  }

  lemma CriticalHypothesesHold(facts: seq<Row>, required: seq<nat>)
    requires |required| <= 5 && forall k :: 0 <= k < |required| ==> required[k] < |facts|
    ensures var hs := CriticalHypotheses(required, CRITICAL_TEXT);
            (forall h :: h in hs ==> HypothesisOk(h, facts)) && hs[0].kind == Some(Malicious) && hs[1].kind == Some(Benign)
  {
    CriticalTextIsText();
  }

  /** The brief written without the model always passes the guardrails. */
  lemma CriticalDraftIsValid(facts: seq<Row>, row: Row, target: Option<Address>, host: Host)
    requires AssessFacts(facts, row, target, host).route == VerifiedCritical
    ensures var a := AssessFacts(facts, row, target, host);
            && target.Some? && (forall k :: 0 <= k < |a.required| ==> a.required[k] < |facts|)
            && ValidDraft(CriticalDraft(facts, a, target.value, CRITICAL_TEXT), facts, a, target)
  {
    var a := AssessFacts(facts, row, target, host);
    RequiredInRange(facts, row, target, host);
    CriticalTextIsText();
    CriticalHypothesesHold(facts, a.required);
    CriticalAssertionsHold(facts, a.required);
    var hs := CriticalHypotheses(a.required, CRITICAL_TEXT);
    assert hs[0] in hs && hs[1] in hs;
  }

  // ---- the dossier of the cited rows ---------------------------------------------------

  function Keeping(ids: seq<EventId>, current: EventId): Row -> bool { (r: Row) => r.id in ids || r.id == current }

  predicate Has(facts: seq<Row>, id: EventId) { exists f :: f in facts && f.id == id }

  function Dossier(row: Row, related: seq<Row>, now: int): Gathered { GatherAll([row] + related, row, now) }

  lemma DossierStep(row: Row, related: seq<Row>, r: Row, now: int)
    ensures Dossier(row, related + [r], now) == Gather(Dossier(row, related, now), r, row, now)
  {
    var rows := [row] + (related + [r]);
    assert rows[..|rows| - 1] == [row] + related && rows[|rows| - 1] == r;
  }

  lemma {:induction false} FactsAreSeen(rows: seq<Row>, current: Row, now: int)
    ensures forall f :: f in GatherAll(rows, current, now).facts ==> f in rows && f.id in GatherAll(rows, current, now).seen
  {
    if rows != [] { FactsAreSeen(rows[..|rows| - 1], current, now); }
  }

  lemma WholePrefix(rows: seq<Row>)
    ensures rows[..|rows|] == rows
  {}

  lemma LastApart(rows: seq<Row>, k: nat)
    requires k < |rows|
    ensures var n := |rows| - 1; rows == rows[..n] + [rows[n]] && rows[..n][..k] == rows[..k]
  {}

  /** A fact of the whole dossier was gathered by row `k`, or was neither seen nor crowded out by then. */
  lemma {:induction false} Gathering(row: Row, related: seq<Row>, now: int, k: nat, id: EventId)
    requires k <= |related| && Has(Facts(row, related, now), id)
    ensures var g := Dossier(row, related[..k], now);
            Has(g.facts, id) || (id !in g.seen && |g.facts| < MAX_FACTS)
    decreases |related|
  {
    if k == |related| {
      WholePrefix(related);
    } else {
      var n := |related| - 1;
      var before := related[..n];
      LastApart(related, k);
      DossierStep(row, before, related[n], now);
      if Has(Facts(row, before, now), id) {
        Gathering(row, before, now, k, id);
      } else {
        Growing(row, before, now, k, id);
      }
    }
  }

  /** Once seen, or once the dossier is full, a row stays out. */
  lemma {:induction false} Growing(row: Row, related: seq<Row>, now: int, k: nat, id: EventId)
    requires k <= |related|
    ensures var g, g' := Dossier(row, related[..k], now), Dossier(row, related, now);
            |g.facts| <= |g'.facts| && (id in g.seen ==> id in g'.seen)
    decreases |related|
  {
    if k == |related| {
      WholePrefix(related);
    } else {
      var n := |related| - 1;
      var before := related[..n];
      LastApart(related, k);
      DossierStep(row, before, related[n], now);
      Growing(row, before, now, k, id);
    }
  }

  lemma SelectStep<T(!new)>(s: seq<T>, x: T, p: T -> bool)
    ensures Select(s + [x], p) == if p(x) then Select(s, p) + [x] else Select(s, p)
  {
    assert (s + [x])[..|s|] == s && Select(s, p) + [] == Select(s, p);
  }

  lemma {:induction false} DigitsMonotone(a: nat, b: nat)
    requires a <= b
    ensures Digits(a) <= Digits(b)
    decreases b
  {
    if a >= 10 { DigitsMonotone(a / 10, b / 10); }
  }

  lemma WeightStep(facts: seq<Row>, r: Row)
    ensures Weight(facts + [r]) == Weight(facts) + r.size + Digits(|facts| + 1) + 2
  {
    assert (facts + [r])[..|facts|] == facts;
  }

  /** Leaving facts out never makes the dossier heavier, although the rest are renumbered. */
  lemma {:induction false} LighterSelection(facts: seq<Row>, keep: Row -> bool)
    ensures Weight(Select(facts, keep)) <= Weight(facts)
  {
    if facts != [] {
      var before, r := facts[..|facts| - 1], facts[|facts| - 1];
      LighterSelection(before, keep);
      assert facts == before + [r];
      WeightStep(before, r);
      SelectStep(before, r, keep);
      WeightStep(Select(before, keep), r);
      DigitsMonotone(|Select(before, keep)| + 1, |before| + 1);
    }
  }

  /** The two dossiers in step: over all rows so far, and over the kept ones. */
  ghost predicate InStep(all: Gathered, kept: Gathered, keep: Row -> bool, ids: seq<EventId>, current: EventId) {
    && kept.facts == Select(all.facts, keep)
    && forall id :: id in kept.seen <==> id in all.seen && (id in ids || id == current)
  }

  predicate Adds(g: Gathered, r: Row, next: Gathered) { next == Gathered(g.facts + [r], g.seen + {r.id}) }

  /** What a row not yet seen, with room for it, does to a dossier. */
  lemma GatherNew(g: Gathered, r: Row, current: Row, now: int)
    requires r.id !in g.seen && |g.facts| < MAX_FACTS
    ensures var next := Gather(g, r, current, now);
            && (next == g <==> !Eligible(r, current, now))
            && (Adds(g, r, next) <==> Eligible(r, current, now) && !r.oversized && Weight(g.facts + [r]) <= MAX_BYTES)
  {}

  lemma GatherShape(g: Gathered, r: Row, current: Row, now: int)
    ensures var next := Gather(g, r, current, now);
            && (r.id in g.seen ==> next == g)
            && (next == g || next == Gathered(g.facts, g.seen + {r.id}) || Adds(g, r, next))
  {}

  lemma GatherInStep(all: Gathered, kept: Gathered, ids: seq<EventId>, row: Row, r: Row, now: int)
    requires InStep(all, kept, Keeping(ids, row.id), ids, row.id) && r.id in ids
    requires Adds(all, r, Gather(all, r, row, now)) || Gather(all, r, row, now) == all
    requires r.id !in all.seen && |all.facts| < MAX_FACTS
    ensures InStep(Gather(all, r, row, now), Gather(kept, r, row, now), Keeping(ids, row.id), ids, row.id)
  {
    var keep := Keeping(ids, row.id);
    SelectStep(all.facts, r, keep);
    LighterSelection(all.facts + [r], keep);
    GatherNew(all, r, row, now);
    GatherNew(kept, r, row, now);
  }

  /** A row that is not kept leaves the kept dossier in step. */
  lemma SkipInStep(all: Gathered, next: Gathered, kept: Gathered, ids: seq<EventId>, current: EventId, r: Row)
    requires InStep(all, kept, Keeping(ids, current), ids, current) && r.id !in ids && r.id != current
    requires next == all || next == Gathered(all.facts, all.seen + {r.id}) || Adds(all, r, next)
    ensures InStep(next, kept, Keeping(ids, current), ids, current)
  {
    SelectStep(all.facts, r, Keeping(ids, current));
  }

  lemma StartInStep(row: Row, now: int, ids: seq<EventId>)
    ensures InStep(Dossier(row, [], now), Dossier(row, [], now), Keeping(ids, row.id), ids, row.id)
  {
    var rows := [row] + [];
    assert rows == [row] && rows[..|rows| - 1] == [];
    var g := Dossier(row, [], now);
    assert GatherAll([], row, now) == Gathered([], {});
    assert g == Gather(Gathered([], {}), row, row, now);
    var keep := Keeping(ids, row.id);
    SelectStep([], row, keep);
    assert [] + [row] == [row] && Select([], keep) == [];
  }

  lemma NextInStep(all: Gathered, kept: Gathered, ids: seq<EventId>, row: Row, r: Row, now: int)
    requires InStep(all, kept, Keeping(ids, row.id), ids, row.id) && r.id != row.id
    requires forall f :: f in all.facts ==> f.id in all.seen
    requires r.id in ids ==>
               && (Has(all.facts, r.id) || (r.id !in all.seen && |all.facts| < MAX_FACTS))
               && var next := Gather(all, r, row, now); Has(next.facts, r.id) || r.id !in next.seen
    ensures InStep(Gather(all, r, row, now), if r.id in ids then Gather(kept, r, row, now) else kept,
                   Keeping(ids, row.id), ids, row.id)
  {
    var next := Gather(all, r, row, now);
    GatherShape(all, r, row, now);
    GatherShape(kept, r, row, now);
    if r.id !in ids {
      SkipInStep(all, next, kept, ids, row.id, r);
    } else if r.id !in all.seen {
      assert !Has(all.facts, r.id);
      assert next != Gathered(all.facts, all.seen + {r.id});
      GatherInStep(all, kept, ids, row, r, now);
    }
  }

  /** The dossier built from the cited rows alone holds exactly the cited facts and the current one. */
  lemma {:induction false} CitedDossier(row: Row, related: seq<Row>, now: int, ids: seq<EventId>, k: nat)
    requires k <= |related|
    requires forall r :: r in related ==> r.id != row.id
    requires forall id :: id in ids ==> Has(Facts(row, related, now), id)
    ensures InStep(Dossier(row, related[..k], now), Dossier(row, Cited(related[..k], ids), now), Keeping(ids, row.id), ids, row.id)
  {
    if k == 0 {
      assert related[..0] == [] && Cited([], ids) == [];
      StartInStep(row, now, ids);
    } else {
      var r, before := related[k - 1], related[..k - 1];
      CitedDossier(row, related, now, ids, k - 1);
      FactsAreSeen([row] + before, row, now);
      assert related[..k] == before + [r];
      if r.id in ids {
        Gathering(row, related, now, k - 1, r.id);
        Gathering(row, related, now, k, r.id);
      }
      StepInStep(row, before, r, now, ids);
    }
  }

  lemma StepInStep(row: Row, before: seq<Row>, r: Row, now: int, ids: seq<EventId>)
    requires InStep(Dossier(row, before, now), Dossier(row, Cited(before, ids), now), Keeping(ids, row.id), ids, row.id)
    requires r.id != row.id
    requires forall f :: f in Dossier(row, before, now).facts ==> f.id in Dossier(row, before, now).seen
    requires r.id in ids ==>
               && (var g := Dossier(row, before, now); Has(g.facts, r.id) || (r.id !in g.seen && |g.facts| < MAX_FACTS))
               && (var next := Dossier(row, before + [r], now); Has(next.facts, r.id) || r.id !in next.seen)
    ensures InStep(Dossier(row, before + [r], now), Dossier(row, Cited(before + [r], ids), now), Keeping(ids, row.id), ids, row.id)
  {
    DossierStep(row, before, r, now);
    SelectStep(before, r, Named(ids));
    DossierStep(row, Cited(before, ids), r, now);
    NextInStep(Dossier(row, before, now), Dossier(row, Cited(before, ids), now), ids, row, r, now);
  }

  // ---- the assessment of the cited rows ----------------------------------------------------

  lemma {:induction false} SelectAppend(a: seq<Row>, b: seq<Row>, p: Row -> bool)
    ensures Select(a + b, p) == Select(a, p) + Select(b, p)
  {
    if b == [] {
      assert a + b == a;
    } else {
      SelectAppend(a, b[..|b| - 1], p);
      SelectAppendOne(a, b[..|b| - 1], b[|b| - 1], p);
      assert b == b[..|b| - 1] + [b[|b| - 1]];
    }
  }

  lemma Regroup(a: seq<Row>, b: seq<Row>, c: seq<Row>)
    ensures a + (b + c) == (a + b) + c
  {}

  function Kept(x: Row, p: Row -> bool): seq<Row> { if p(x) then [x] else [] }

  lemma SelectLast(s: seq<Row>, x: Row, p: Row -> bool)
    ensures Select(s + [x], p) == Select(s, p) + Kept(x, p)
  {
    SelectStep(s, x, p);
  }

  lemma SelectAppendOne(a: seq<Row>, b: seq<Row>, x: Row, p: Row -> bool)
    requires Select(a + b, p) == Select(a, p) + Select(b, p)
    ensures Select(a + (b + [x]), p) == Select(a, p) + Select(b + [x], p)
  {
    Regroup(a, b, [x]);
    SelectLast(a + b, x, p);
    SelectLast(b, x, p);
    Regroup(Select(a, p), Select(b, p), Kept(x, p));
  }

  lemma {:induction false} SelectSwap(s: seq<Row>, p: Row -> bool, q: Row -> bool)
    ensures Select(Select(s, p), q) == Select(Select(s, q), p)
  {
    if s != [] {
      var s0, x := s[..|s| - 1], s[|s| - 1];
      assert s == s0 + [x];
      SelectSwap(s0, p, q);
      SelectStep(s0, x, p);
      SelectStep(s0, x, q);
      SelectStep(Select(s0, p), x, q);
      SelectStep(Select(s0, q), x, p);
    }
  }

  lemma {:induction false} SelectAll(s: seq<Row>, p: Row -> bool)
    requires forall x :: x in s ==> p(x)
    ensures Select(s, p) == s
  {
    if s != [] {
      var before := s[..|s| - 1];
      assert s == before + [s[|s| - 1]] && s[|s| - 1] in s;
      SelectAll(before, p);
    }
  }

  /** `ps` are the places in `facts` of the rows `xs`. */
  predicate PlacesOf(facts: seq<Row>, ps: seq<nat>, xs: seq<Row>) {
    |ps| == |xs| && forall k :: 0 <= k < |ps| ==> ps[k] < |facts| && facts[ps[k]] == xs[k]
  }

  lemma OneMorePlace(facts: seq<Row>, r: Row, ps: seq<nat>, xs: seq<Row>)
    requires PlacesOf(facts, ps, xs)
    ensures PlacesOf(facts + [r], ps, xs) && PlacesOf(facts + [r], ps + [|facts|], xs + [r])
  {}

  /** Positions are where the selected rows are. */
  lemma {:induction false} PositionsSelect(facts: seq<Row>, p: Row -> bool)
    ensures PlacesOf(facts, Positions(facts, p), Select(facts, p))
  {
    if facts != [] {
      var n := |facts| - 1;
      PositionsSelect(facts[..n], p);
      OneMorePlace(facts[..n], facts[n], Positions(facts[..n], p), Select(facts[..n], p));
      assert facts == facts[..n] + [facts[n]];
    }
  }

  /** If the first `n` matching facts are kept, the kept facts have at least `n` matches. */
  lemma KeptMatches(facts: seq<Row>, p: Row -> bool, keep: Row -> bool, n: nat)
    requires n <= |Positions(facts, p)|
    requires forall k :: 0 <= k < n ==> keep(facts[Positions(facts, p)[k]])
    ensures |Positions(Select(facts, keep), p)| >= n
  {
    PositionsSelect(facts, p);
    PositionsSelect(Select(facts, keep), p);
    SelectSwap(facts, p, keep);
    forall k | 0 <= k < n ensures keep(Select(facts, p)[k]) {
      assert Select(facts, p)[k] == facts[Positions(facts, p)[k]];
    }
    SelectPrefix(Select(facts, p), keep, n);
  }

  lemma SelectPrefix(s: seq<Row>, keep: Row -> bool, n: nat)
    requires n <= |s| && forall k :: 0 <= k < n ==> keep(s[k])
    ensures |Select(s, keep)| >= n
  {
    assert s == s[..n] + s[n..];
    SelectAppend(s[..n], s[n..], keep);
    SelectAll(s[..n], keep);
  }

  lemma {:induction false} CurrentFound(facts: seq<Row>, id: EventId)
    ensures CurrentFact(facts, id).Some? <==> Has(facts, id)
  {
    if facts != [] {
      CurrentFound(facts[..|facts| - 1], id);
      assert facts == facts[..|facts| - 1] + [facts[|facts| - 1]];
    }
  }

  /** Facts that carry the current event's id are the current row, when no related row shares it. */
  lemma CurrentIsRow(row: Row, related: seq<Row>, now: int, f: Row)
    requires forall r :: r in related ==> r.id != row.id
    requires f in Facts(row, related, now) && f.id == row.id
    ensures f == row
  {
    FactsAreSeen([row] + related, row, now);
  }

  lemma CurrentKept(facts: seq<Row>, row: Row, ids: seq<EventId>)
    requires forall f :: f in facts && f.id == row.id ==> f == row
    requires Has(facts, row.id)
    ensures var kept := Select(facts, Keeping(ids, row.id));
            CurrentFact(kept, row.id).Some? && kept[CurrentFact(kept, row.id).value] == row
  {
    var kept := Select(facts, Keeping(ids, row.id));
    assert row in facts && row in kept;
    CurrentFound(kept, row.id);
    assert kept[CurrentFact(kept, row.id).value] in kept;
  }

  lemma CurrentAt(facts: seq<Row>, row: Row)
    requires forall f :: f in facts && f.id == row.id ==> f == row
    requires CurrentFact(facts, row.id).Some?
    ensures Has(facts, row.id) && facts[CurrentFact(facts, row.id).value] == row
  {
    assert facts[CurrentFact(facts, row.id).value] in facts;
  }

  lemma EnoughKept(facts: seq<Row>, p: Row -> bool, ids: seq<EventId>, current: EventId, n: nat)
    requires n <= |Positions(facts, p)|
    requires forall i :: 0 <= i < |facts| && i in Positions(facts, p)[..n] ==> facts[i].id in ids
    ensures |Positions(Select(facts, Keeping(ids, current)), p)| >= n
  {
    var ps := Positions(facts, p);
    forall k | 0 <= k < n ensures Keeping(ids, current)(facts[ps[k]]) {
      assert ps[..n][k] == ps[k];
    }
    KeptMatches(facts, p, Keeping(ids, current), n);
  }

  /** The rule an assessment finds, once the current fact is known to be the row itself. */
  function RuleFor(facts: seq<Row>, row: Row, target: Address, host: Host): Option<Rule> {
    if IsFailureEvent(row) && |Positions(facts, Failing(row, target))| >= 5 then Some(RepeatedLoginFailures)
    else if IsConnectionEvent(row, target) && |Positions(facts, Detecting(row, host))| >= 1 then Some(MalwareProcessNetwork)
    else None
  }

  predicate IsFailureEvent(row: Row) { Field(row, "event_type") == "auth_failure" }

  predicate IsConnectionEvent(row: Row, target: Address) {
    Field(row, "event_type") == "network_connection" && Field(row, "origin") == "sysmon" && Field(row, "dst_ip") == target
  }

  lemma AssessRule(facts: seq<Row>, row: Row, target: Option<Address>, host: Host)
    requires CurrentFact(facts, row.id).Some? && facts[CurrentFact(facts, row.id).value] == row
    requires target.Some? && host.isLocal(Field(row, "hostname"))
    ensures var a := AssessFacts(facts, row, target, host);
            && a.rule == RuleFor(facts, row, target.value, host)
            && (a.rule == Some(RepeatedLoginFailures) ==> a.required == Positions(facts, Failing(row, target.value))[..5])
            && (a.rule == Some(MalwareProcessNetwork) ==>
                  a.required == [CurrentFact(facts, row.id).value, Positions(facts, Detecting(row, host))[0]])
  {
  }

  /** Keeping the current and the required facts keeps the rule. */
  lemma SameRule(facts: seq<Row>, row: Row, target: Option<Address>, host: Host, ids: seq<EventId>)
    requires forall f :: f in facts && f.id == row.id ==> f == row
    requires AssessFacts(facts, row, target, host).rule.Some?
    requires forall i :: 0 <= i < |facts| && i in AssessFacts(facts, row, target, host).required ==> facts[i].id in ids
    ensures AssessFacts(Select(facts, Keeping(ids, row.id)), row, target, host).rule == AssessFacts(facts, row, target, host).rule
  {
    var kept := Select(facts, Keeping(ids, row.id));
    CurrentAt(facts, row);
    CurrentKept(facts, row, ids);
    AssessRule(facts, row, target, host);
    AssessRule(kept, row, target, host);
    var required := AssessFacts(facts, row, target, host).required;
    if RuleFor(facts, row, target.value, host) == Some(RepeatedLoginFailures) {
      KeptLogin(facts, row, target.value, host, ids, required);
    } else {
      assert required[1] in required;
      ConnectionIsNoFailure(row, target.value);
      KeptMalware(facts, row, host, ids, row.id);
    }
  }

  lemma KeptLogin(facts: seq<Row>, row: Row, target: Address, host: Host, ids: seq<EventId>, required: seq<nat>)
    requires RuleFor(facts, row, target, host) == Some(RepeatedLoginFailures)
    requires required == Positions(facts, Failing(row, target))[..5]
    requires forall i :: 0 <= i < |facts| && i in required ==> facts[i].id in ids
    ensures RuleFor(Select(facts, Keeping(ids, row.id)), row, target, host) == Some(RepeatedLoginFailures)
  {
    EnoughKept(facts, Failing(row, target), ids, row.id, 5);
  }

  lemma KeptMalware(facts: seq<Row>, row: Row, host: Host, ids: seq<EventId>, current: EventId)
    requires |Positions(facts, Detecting(row, host))| >= 1
    requires facts[Positions(facts, Detecting(row, host))[0]].id in ids
    ensures |Positions(Select(facts, Keeping(ids, current)), Detecting(row, host))| >= 1
  {
    var ps := Positions(facts, Detecting(row, host));
    assert ps[..1] == [ps[0]];
    EnoughKept(facts, Detecting(row, host), ids, current, 1);
  }

  lemma ConnectionIsNoFailure(row: Row, target: Address)
    ensures !(IsFailureEvent(row) && IsConnectionEvent(row, target))
  {
    assert |"auth_failure"| == 12 && |"network_connection"| == 18;
  }

  // ---- the agreement --------------------------------------------------------------------------

  /** Every brief that asks for a block passes the re-check on the same row, proposal and time. */
  lemma ReviewedBlockIsAuthorized(row: Row, related: seq<Row>, target: Option<Address>, now: int, host: Host, mode: Mode,
                                  draft: Option<Draft>, critic: Critic)
    requires forall r :: r in related ==> r.id != row.id
    requires Review(row, related, target, now, host, mode, draft, critic).Ok?
    requires Review(row, related, target, now, host, mode, draft, critic).value.action == BlockIp
    ensures Authorize(Review(row, related, target, now, host, mode, draft, critic).value, row, related, target, now, host)
  {
    var facts, a := Facts(row, related, now), Assess(row, related, target, now, host);
    var b := Review(row, related, target, now, host, mode, draft, critic).value;
    BlockingReceipt(row, related, target, now, host, mode, draft, critic);
    CitedRule(row, related, target, now, host, EvidenceIds(facts, a.required));
    forall id | id in b.receipt.evidence ensures exists f :: f in facts && f.id == id { assert Has(facts, id); }
  }

  /** What a brief that asks for a block carries. */
  lemma BlockingReceipt(row: Row, related: seq<Row>, target: Option<Address>, now: int, host: Host, mode: Mode,
                        draft: Option<Draft>, critic: Critic)
    requires Review(row, related, target, now, host, mode, draft, critic).Ok?
    requires Review(row, related, target, now, host, mode, draft, critic).value.action == BlockIp
    ensures var a, b := Assess(row, related, target, now, host), Review(row, related, target, now, host, mode, draft, critic).value;
            && target.Some? && b.target == target && a.rule.Some? && b.receipt.evidence != []
            && b.receipt == Receipt(a.rule, EvidenceIds(Facts(row, related, now), a.required), true)
  {
    var facts, a := Facts(row, related, now), Assess(row, related, target, now, host);
    RequiredInRange(facts, row, target, host);
    if a.route == VerifiedCritical && mode != Deep { FastBlock(facts, row, target, host); }
    else { ChallengedBlock(facts, a, target, draft, critic); }
    assert facts[a.required[0]].id in EvidenceIds(facts, a.required);
  }

  lemma FastBlock(facts: seq<Row>, row: Row, target: Option<Address>, host: Host)
    requires AssessFacts(facts, row, target, host).route == VerifiedCritical && FastBrief(facts, row, target, host).Ok?
    ensures var a, b := AssessFacts(facts, row, target, host), FastBrief(facts, row, target, host).value;
            target.Some? && b.target == target && a.rule.Some? && b.receipt == Receipt(a.rule, EvidenceIds(facts, a.required), true)
  {
    RequiredInRange(facts, row, target, host);
  }

  lemma ChallengedBlock(facts: seq<Row>, a: Assessment, target: Option<Address>, draft: Option<Draft>, critic: Critic)
    requires ChallengedBrief(facts, a, target, draft, critic).Ok?
    requires ChallengedBrief(facts, a, target, draft, critic).value.action == BlockIp
    ensures var b := ChallengedBrief(facts, a, target, draft, critic).value;
            target.Some? && b.target == target && a.rule.Some? && b.receipt == Receipt(a.rule, EvidenceIds(facts, a.required), true)
  {}

  lemma CitedRule(row: Row, related: seq<Row>, target: Option<Address>, now: int, host: Host, ids: seq<EventId>)
    requires forall r :: r in related ==> r.id != row.id
    requires Assess(row, related, target, now, host).rule.Some?
    requires ids == EvidenceIds(Facts(row, related, now), Assess(row, related, target, now, host).required)
    ensures Assess(row, Cited(related, ids), target, now, host).rule == Assess(row, related, target, now, host).rule
    ensures forall id :: id in ids ==> Has(Facts(row, related, now), id)
  {
    var facts := Facts(row, related, now);
    CitedDossier(row, related, now, ids, |related|);
    assert related[..|related|] == related;
    forall f | f in facts && f.id == row.id ensures f == row { CurrentIsRow(row, related, now, f); }
    SameRule(facts, row, target, host, ids);
  }

  /** The fast path never fails: a verified finding always yields a brief that asks for a block. */
  lemma FastReviewSucceeds(row: Row, related: seq<Row>, target: Option<Address>, now: int, host: Host, mode: Mode,
                           draft: Option<Draft>, critic: Critic)
    requires mode != Deep && Assess(row, related, target, now, host).route == VerifiedCritical
    ensures var r := Review(row, related, target, now, host, mode, draft, critic);
            r.Ok? && r.value.action == BlockIp && r.value.target == target
  {
    CriticalDraftIsValid(Facts(row, related, now), row, target, host);
    var at := CurrentFact(Facts(row, related, now), row.id);
    assert at.Some?;
  }
}
