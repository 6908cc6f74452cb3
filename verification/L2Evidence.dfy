/** Second-level evidence: the dossier of facts, the deterministic assessment, the guardrails on a
    model-written brief, the review that issues a brief, and the re-check before it is acted on. */
module L2Evidence {
  import opened Wrappers

  type EventId = string
  type Address = string

  /** A telemetry row. `size` is its JSON length as a fact, not counting the digits of its number;
      `oversized` says that one of its fields is longer than 2048 characters. */
  datatype Row = Row(id: EventId, local: bool, tagged: bool, timestamp: int, fields: map<string, string>,
                     oversized: bool, size: nat)

  const FIELDS := {"hostname", "event_type", "timestamp", "username", "user_id", "src_ip", "dst_ip",
                   "process_name", "process_id", "file_path", "action", "event_id", "origin"}

  function Field(r: Row, name: string): string { if name in r.fields then r.fields[name] else "" }

  /** What the assessment asks of the host: its own name, and the normal form of a path. */
  datatype Host = Host(isLocal: string -> bool, artifact: string -> Option<string>)

  // ---- the dossier ----------------------------------------------------------------

  const MAX_FACTS := 64
  const MAX_BYTES := 131072

  function Digits(n: nat): nat { if n < 10 then 1 else 1 + Digits(n / 10) }

  /** Length of the JSON list of facts; fact `i` is numbered `i + 1`. */
  function Weight(facts: seq<Row>): nat {
    if facts == [] then 0 else Weight(facts[..|facts| - 1]) + facts[|facts| - 1].size + Digits(|facts|) + 2
  }

  datatype Gathered = Gathered(facts: seq<Row>, seen: set<EventId>)

  /** A local row of the current host, untagged and at most five minutes old. */
  predicate Eligible(r: Row, current: Row, now: int) {
    r.local && Field(r, "hostname") == Field(current, "hostname") && !r.tagged && 0 <= now - r.timestamp <= 300
  }

  function Gather(g: Gathered, r: Row, current: Row, now: int): Gathered {
    if r.id in g.seen || |g.facts| >= MAX_FACTS || !Eligible(r, current, now) then g
    else if r.oversized || Weight(g.facts + [r]) > MAX_BYTES then Gathered(g.facts, g.seen + {r.id})
    else Gathered(g.facts + [r], g.seen + {r.id})
  }

  function GatherAll(rows: seq<Row>, current: Row, now: int): Gathered {
    if rows == [] then Gathered([], {})
    else Gather(GatherAll(rows[..|rows| - 1], current, now), rows[|rows| - 1], current, now)
  }

  function Facts(row: Row, related: seq<Row>, now: int): seq<Row> { GatherAll([row] + related, row, now).facts }

  method Dossier(row: Row, related: seq<Row>, now: int) returns (facts: seq<Row>)
    ensures facts == Facts(row, related, now)
  {
    var rows, seen := [row] + related, {};
    facts := [];
    for i := 0 to |rows|
      invariant Gathered(facts, seen) == GatherAll(rows[..i], row, now)
    {
      var r := rows[i];
      assert rows[..i + 1][..i] == rows[..i];
      if r.id in seen || |facts| >= MAX_FACTS { continue; }
      if !Eligible(r, row, now) { continue; }
      seen := seen + {r.id};
      if r.oversized { continue; }
      if Weight(facts + [r]) > MAX_BYTES { continue; }
      facts := facts + [r];
    }
    assert rows[..|rows|] == rows;
  }

  // ---- the assessment ----------------------------------------------------------------

  datatype Route = Investigate | Reason | VerifiedCritical

  datatype Rule = RepeatedLoginFailures | MalwareProcessNetwork

  /** `required` holds positions in the list of facts. */
  datatype Assessment = Assessment(route: Route, rule: Option<Rule>, required: seq<nat>)

  const INSUFFICIENT := Assessment(Investigate, None, [])

  function Account(r: Row): Option<string> {
    var sid, user := Field(r, "user_id"), Field(r, "username");
    if sid != "" && sid != "S-1-0-0" then Some(sid)
    else if user !in {"", "-", "unknown"} then Some(user) else None
  }

  predicate Failure(r: Row, current: Row, target: Address) {
    && Field(r, "event_type") == "auth_failure"
    && Account(r).Some? && Account(r) == Account(current)
    && Field(r, "src_ip") == target
    && Field(r, "origin") in {"windows", "linux_auth"}
  }

  predicate Detection(r: Row, current: Row, host: Host) {
    && Field(r, "origin") == "defender" && Field(r, "event_type") == "malware_detection"
    && host.artifact(Field(r, "file_path")).Some?
    && host.artifact(Field(r, "file_path")) == host.artifact(Field(current, "process_name"))
  }

  function Failing(current: Row, target: Address): Row -> bool { r => Failure(r, current, target) }

  function Detecting(current: Row, host: Host): Row -> bool { r => Detection(r, current, host) }

  /** The positions in `facts` of the rows that satisfy `p`, in order. */
  function Positions(facts: seq<Row>, p: Row -> bool): (r: seq<nat>)
    ensures forall k :: 0 <= k < |r| ==> r[k] < |facts| && p(facts[r[k]])
  {
    if facts == [] then []
    else
      var n := |facts| - 1;
      Positions(facts[..n], p) + if p(facts[n]) then [n] else []
  }

  function CurrentFact(facts: seq<Row>, id: EventId): (r: Option<nat>)
    ensures r.Some? ==> r.value < |facts| && facts[r.value].id == id
  {
    if facts == [] then None
    else
      var earlier := CurrentFact(facts[..|facts| - 1], id);
      if earlier.Some? then earlier else if facts[|facts| - 1].id == id then Some(|facts| - 1) else None
  }

  function AssessFacts(facts: seq<Row>, row: Row, target: Option<Address>, host: Host): Assessment {
    var at := CurrentFact(facts, row.id);
    if at.None? || target.None? || !host.isLocal(Field(row, "hostname")) then INSUFFICIENT
    else
      var current := facts[at.value];
      var failures := Positions(facts, Failing(current, target.value));
      var detections := Positions(facts, Detecting(current, host));
      if Field(current, "event_type") == "auth_failure" && |failures| >= 5 then
        Assessment(Reason, Some(RepeatedLoginFailures), failures[..5])
      else if && Field(current, "event_type") == "network_connection" && Field(current, "origin") == "sysmon"
              && Field(current, "dst_ip") == target.value && |detections| >= 1 then
        Assessment(VerifiedCritical, Some(MalwareProcessNetwork), [at.value, detections[0]])
      else INSUFFICIENT
  }

  function Assess(row: Row, related: seq<Row>, target: Option<Address>, now: int, host: Host): Assessment {
    AssessFacts(Facts(row, related, now), row, target, host)
  }

  // ---- guardrails on a brief --------------------------------------------------------------

  datatype Kind = Malicious | Benign

  /** Parts of a model reply; a field of the wrong type or out of its set is None. */
  datatype Hypothesis = Hypothesis(kind: Option<Kind>, summary: string, supports: Option<seq<nat>>, against: Option<seq<nat>>)

  datatype Assertion = Assertion(fact: nat, field: string, value: string)

  datatype Advice = BlockIp | HumanReview

  datatype Draft = Draft(action: Option<Advice>, target: Option<Address>, confidence: Option<real>, texts: seq<string>,
                         hypotheses: Option<seq<Hypothesis>>, assertions: Option<seq<Assertion>>)

  predicate Blank(s: string) { forall c :: c in s ==> c in {' ', '\t', '\n', '\r'} }

  predicate TextOk(s: string, limit: nat) { !Blank(s) && |s| <= limit }

  predicate RefsOk(refs: Option<seq<nat>>, facts: seq<Row>) {
    refs.Some? && |refs.value| <= 64 && forall i :: i in refs.value ==> i < |facts|
  }

  predicate HypothesisOk(h: Hypothesis, facts: seq<Row>) {
    h.kind.Some? && TextOk(h.summary, 2000) && RefsOk(h.supports, facts) && RefsOk(h.against, facts)
  }

  predicate AssertionOk(a: Assertion, facts: seq<Row>) {
    a.fact < |facts| && a.field in FIELDS && a.value == Field(facts[a.fact], a.field)
  }

  predicate Cites(assertions: seq<Assertion>, fact: nat) {
    exists a :: a in assertions && a.fact == fact
  }

  /** What the guardrails demand of every brief, and of one that asks for a block. */
  predicate ValidDraft(d: Draft, facts: seq<Row>, a: Assessment, target: Option<Address>) {
    && d.action.Some?
    && d.confidence.Some? && 0.0 <= d.confidence.value <= 1.0
    && |d.texts| == 7 && (forall t :: t in d.texts ==> TextOk(t, 8000))
    && d.hypotheses.Some? && 2 <= |d.hypotheses.value| <= 6
    && (forall h :: h in d.hypotheses.value ==> HypothesisOk(h, facts))
    && (exists h :: h in d.hypotheses.value && h.kind == Some(Malicious))
    && (exists h :: h in d.hypotheses.value && h.kind == Some(Benign))
    && d.assertions.Some? && 1 <= |d.assertions.value| <= 64
    && (forall x :: x in d.assertions.value ==> AssertionOk(x, facts))
    && (d.action == Some(BlockIp) ==>
          && target.Some? && a.rule.Some? && d.target == target
          && forall i :: i in a.required ==> Cites(d.assertions.value, i))
  }

  method Validate(d: Draft, facts: seq<Row>, a: Assessment, target: Option<Address>) returns (ok: bool)
    ensures ok <==> ValidDraft(d, facts, a, target)
  {
    if d.action.None? || d.confidence.None? || !(0.0 <= d.confidence.value <= 1.0) { return false; }
    if |d.texts| != 7 || exists t :: t in d.texts && !TextOk(t, 8000) { return false; }
    if d.hypotheses.None? || !(2 <= |d.hypotheses.value| <= 6) { return false; }
    var hs, kinds := d.hypotheses.value, {};
    for i := 0 to |hs|
      invariant forall h :: h in hs[..i] ==> HypothesisOk(h, facts)
      invariant forall k :: k in kinds <==> exists h :: h in hs[..i] && h.kind == Some(k)
    {
      assert hs[..i + 1] == hs[..i] + [hs[i]];
      if !HypothesisOk(hs[i], facts) { return false; }
      kinds := kinds + {hs[i].kind.value};
    }
    assert hs[..|hs|] == hs;
    if Malicious !in kinds || Benign !in kinds { return false; }
    if d.assertions.None? || !(1 <= |d.assertions.value| <= 64) { return false; }
    var xs, cited := d.assertions.value, {};
    for i := 0 to |xs|
      invariant forall x :: x in xs[..i] ==> AssertionOk(x, facts)
      invariant forall n :: n in cited <==> Cites(xs[..i], n)
    {
      assert xs[..i + 1] == xs[..i] + [xs[i]];
      if !AssertionOk(xs[i], facts) { return false; }
      cited := cited + {xs[i].fact};
    }
    assert xs[..|xs|] == xs;
    if d.action == Some(BlockIp) {
      if target.None? || a.rule.None? || exists i :: i in a.required && i !in cited { return false; }
      if d.target != target { return false; }
    }
    return true;
  }

  // ---- review and authorization ------------------------------------------------------------

  datatype Receipt = Receipt(rule: Option<Rule>, evidence: seq<EventId>, accepted: bool)

  datatype Brief = Brief(action: Advice, target: Option<Address>, confidence: real, receipt: Receipt, needsDeepReview: bool)

  datatype Critic = Critic(accept: Option<bool>, objections: Option<seq<string>>, citations: Option<seq<nat>>)

  predicate CriticOk(c: Critic, facts: seq<Row>) {
    && c.accept.Some?
    && c.objections.Some? && |c.objections.value| <= 16 && (forall x :: x in c.objections.value ==> TextOk(x, 2000))
    && c.citations.Some? && c.citations.value != [] && forall i :: i in c.citations.value ==> i < |facts|
  }

  predicate CriticAccepts(c: Critic, d: Draft, a: Assessment)
    requires c.accept.Some? && c.objections.Some? && c.citations.Some?
  {
    && c.accept.value && c.objections.value == []
    && (d.action == Some(BlockIp) ==> forall i :: i in a.required ==> i in c.citations.value)
  }

  /** The event ids of the facts at the required positions. */
  function EvidenceIds(facts: seq<Row>, required: seq<nat>): (r: seq<EventId>)
    ensures forall id :: id in r <==> exists i :: 0 <= i < |facts| && i in required && facts[i].id == id
  {
    if facts == [] then []
    else
      var n := |facts| - 1;
      var before := EvidenceIds(facts[..n], required);
      if n in required then before + [facts[n].id] else before
  }

  function CriticalHypotheses(required: seq<nat>, text: string): seq<Hypothesis> {
    [Hypothesis(Some(Malicious), text, Some(required), Some([])), Hypothesis(Some(Benign), text, Some([]), Some(required))]
  }

  function CriticalAssertions(facts: seq<Row>, required: seq<nat>): seq<Assertion>
    requires forall k :: 0 <= k < |required| ==> required[k] < |facts|
  {
    seq(|required|, k requires 0 <= k < |required| => Assertion(required[k], "event_type", Field(facts[required[k]], "event_type")))
  }

  /** The brief written without the model when the finding is independently verified. */
  function CriticalDraft(facts: seq<Row>, a: Assessment, target: Address, text: string): Draft
    requires forall k :: 0 <= k < |a.required| ==> a.required[k] < |facts|
  {
    Draft(Some(BlockIp), Some(target), Some(1.0), [text, text, text, text, text, text, text],
          Some(CriticalHypotheses(a.required, text)), Some(CriticalAssertions(facts, a.required)))
  }

  datatype Mode = Normal | FastOnly | Deep

  const CRITICAL_TEXT := "Native records match"

  /** The brief for a verified finding, written without the model. */
  function FastBrief(facts: seq<Row>, row: Row, target: Option<Address>, host: Host): Result<Brief>
    requires AssessFacts(facts, row, target, host).route == VerifiedCritical
  {
    var a := AssessFacts(facts, row, target, host);
    RequiredInRange(facts, row, target, host);
    if ValidDraft(CriticalDraft(facts, a, target.value, CRITICAL_TEXT), facts, a, target)
    then Ok(Brief(BlockIp, target, 1.0, Receipt(a.rule, EvidenceIds(facts, a.required), true), true))
    else Err("brief")
  }

  /** The model's draft after its challenge. */
  function ChallengedBrief(facts: seq<Row>, a: Assessment, target: Option<Address>, draft: Option<Draft>, critic: Critic): Result<Brief> {
    if draft.None? || !ValidDraft(draft.value, facts, a, target) then Err("brief")
    else if !CriticOk(critic, facts) then Err("challenge")
    else
      var accepted := CriticAccepts(critic, draft.value, a);
      Ok(Brief(if accepted then draft.value.action.value else HumanReview, draft.value.target, draft.value.confidence.value,
               Receipt(a.rule, EvidenceIds(facts, a.required), accepted), false))
  }

  /** `review`: the fast path for a verified finding, or the model's draft and its challenge. */
  function Review(row: Row, related: seq<Row>, target: Option<Address>, now: int, host: Host, mode: Mode,
                  draft: Option<Draft>, critic: Critic): Result<Brief>
  {
    var facts := Facts(row, related, now);
    var a := Assess(row, related, target, now, host);
    if facts == [] then Err("evidence")
    else if a.route == VerifiedCritical && mode != Deep then FastBrief(facts, row, target, host)
    else if mode == FastOnly then Err("fast")
    else ChallengedBrief(facts, a, target, draft, critic)
  }

  method WriteFastBrief(facts: seq<Row>, row: Row, target: Option<Address>, host: Host) returns (r: Result<Brief>)
    requires AssessFacts(facts, row, target, host).route == VerifiedCritical
    ensures r == FastBrief(facts, row, target, host)
  {
    var a := AssessFacts(facts, row, target, host);
    RequiredInRange(facts, row, target, host);
    var ok := Validate(CriticalDraft(facts, a, target.value, CRITICAL_TEXT), facts, a, target);
    if !ok { return Err("brief"); }
    return Ok(Brief(BlockIp, target, 1.0, Receipt(a.rule, EvidenceIds(facts, a.required), true), true));
  }

  /** The reply is taken as drafted and downgraded when the challenge fails. */
  method Challenge(facts: seq<Row>, a: Assessment, target: Option<Address>, draft: Option<Draft>, critic: Critic) returns (r: Result<Brief>)
    ensures r == ChallengedBrief(facts, a, target, draft, critic)
  {
    if draft.None? { return Err("brief"); }
    var data := draft.value;
    var ok := Validate(data, facts, a, target);
    if !ok { return Err("brief"); }
    if !CriticOk(critic, facts) { return Err("challenge"); }
    var accepted := critic.accept.value && critic.objections.value == [];
    if data.action == Some(BlockIp) && exists i :: i in a.required && i !in critic.citations.value { accepted := false; }
    if !accepted { data := data.(action := Some(HumanReview)); }
    return Ok(Brief(data.action.value, data.target, data.confidence.value, Receipt(a.rule, EvidenceIds(facts, a.required), accepted), false));
  }

  method RunReview(row: Row, related: seq<Row>, target: Option<Address>, now: int, host: Host, mode: Mode,
                   draft: Option<Draft>, critic: Critic) returns (r: Result<Brief>)
    ensures r == Review(row, related, target, now, host, mode, draft, critic)
  {
    var facts := Dossier(row, related, now);
    var a := AssessFacts(facts, row, target, host);
    if facts == [] { return Err("evidence"); }
    if a.route == VerifiedCritical && mode != Deep {
      r := WriteFastBrief(facts, row, target, host);
    } else if mode == FastOnly {
      r := Err("fast");
    } else {
      r := Challenge(facts, a, target, draft, critic);
    }
  }

  function Named(ids: seq<EventId>): Row -> bool { (r: Row) => r.id in ids }

  function Cited(rows: seq<Row>, ids: seq<EventId>): seq<Row> {
    Select(rows, Named(ids))
  }

  predicate Authorize(b: Brief, row: Row, related: seq<Row>, target: Option<Address>, now: int, host: Host) {
    && b.action == BlockIp && target.Some? && b.target == target
    && b.receipt.accepted
    && var a := Assess(row, related, target, now, host);
       var supported := Assess(row, Cited(related, b.receipt.evidence), target, now, host);
       && a.rule.Some? && a.rule == b.receipt.rule && a.rule == supported.rule
       && b.receipt.evidence != []
       && forall id :: id in b.receipt.evidence ==> exists f :: f in Facts(row, related, now) && f.id == id
  }

  /** The elements of `s` that satisfy `p`, in order. */
  function Select<T(!new)>(s: seq<T>, p: T -> bool): (r: seq<T>)
    ensures forall x :: x in r <==> x in s && p(x)
    ensures |r| <= |s|
  {
    if s == [] then []
    else Select(s[..|s| - 1], p) + if p(s[|s| - 1]) then [s[|s| - 1]] else []
  }

  lemma RequiredInRange(facts: seq<Row>, row: Row, target: Option<Address>, host: Host)
    ensures var a := AssessFacts(facts, row, target, host);
            && (forall i :: i in a.required ==> i < |facts|)
            && (a.route != Investigate ==> target.Some? && a.rule.Some? && 1 <= |a.required| <= 5)
  {
  }

  lemma CriticalTextIsText()
    ensures TextOk(CRITICAL_TEXT, 2000)
  {
    assert CRITICAL_TEXT[0] == 'N' && CRITICAL_TEXT[0] in CRITICAL_TEXT;
  }
}
