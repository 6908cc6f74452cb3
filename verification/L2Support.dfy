/** What second-level reviews and re-checks accept, written out in the fields of rows, drafts and challenges. */
module L2Support {
  import opened Wrappers
  import opened L2Evidence
  import A = L2Agreement

  // ---- the facts ------------------------------------------------------------------------

  /** A short local row of the same host, untagged and at most five minutes old. */
  predicate Usable(r: Row, current: Row, now: int) {
    && r.local && !r.tagged && !r.oversized && Field(r, "hostname") == Field(current, "hostname")
    && r.timestamp <= now <= r.timestamp + 300
  }

  predicate DistinctIds(rows: seq<Row>) { forall i, j :: 0 <= i < j < |rows| ==> rows[i].id != rows[j].id }

  ghost predicate Sound(g: Gathered, rows: seq<Row>, current: Row, now: int) {
    && (forall f :: f in g.facts ==> f in rows && f.id in g.seen && Usable(f, current, now))
    && DistinctIds(g.facts) && |g.facts| <= 64 && (g.facts != [] ==> Weight(g.facts) <= 131072)
  }

  lemma {:induction false} GatheredSound(rows: seq<Row>, current: Row, now: int)
    ensures Sound(GatherAll(rows, current, now), rows, current, now)
  {
    if rows != [] {
      var before, r := rows[..|rows| - 1], rows[|rows| - 1];
      GatheredSound(before, current, now);
      assert forall f :: f in GatherAll(before, current, now).facts ==> f in rows;
    }
  }

  /** Facts are usable rows, each id once, at most 64 and 131072 bytes of them. */
  lemma FactsSound(row: Row, related: seq<Row>, now: int)
    ensures var facts := Facts(row, related, now);
            && (forall f :: f in facts ==> (f == row || f in related) && Usable(f, row, now))
            && DistinctIds(facts) && |facts| <= 64 && (facts != [] ==> Weight(facts) <= 131072)
  {
    GatheredSound([row] + related, row, now);
  }

  function TenTo(n: nat): nat { if n == 0 then 1 else 10 * TenTo(n - 1) }

  /** As many digits as the number is long in decimal. */
  lemma {:induction false} DigitsMean(n: nat)
    ensures Digits(n) >= 1 && n < TenTo(Digits(n)) && (n > 0 ==> n >= TenTo(Digits(n) - 1)) && (n == 0 ==> Digits(n) == 1)
  {
    if n >= 10 { DigitsMean(n / 10); }
  }

  /** The list of one fact is its own text, the digit of its number and two brackets; each further fact adds its
      text, the digits of its number, and a comma and a space. */
  lemma WeightMeans(facts: seq<Row>, r: Row)
    ensures Weight([r]) == r.size + 1 + 2
    ensures Weight(facts + [r]) == Weight(facts) + r.size + Digits(|facts| + 1) + 2
  {
    assert [] + [r] == [r];
    A.WeightStep([], r);
    A.WeightStep(facts, r);
  }

  function UsableAt(current: Row, now: int): Row -> bool { (r: Row) => Usable(r, current, now) }

  /** Within the bounds a row of a new id is gathered exactly when it is usable. */
  lemma GatherWithin(g: Gathered, r: Row, current: Row, now: int)
    requires r.id !in g.seen && |g.facts| < 64 && (Usable(r, current, now) ==> Weight(g.facts + [r]) <= 131072)
    ensures Gather(g, r, current, now).facts == if Usable(r, current, now) then g.facts + [r] else g.facts
    ensures Gather(g, r, current, now).seen <= g.seen + {r.id}
  {}

  lemma {:induction false} SeenAreRows(rows: seq<Row>, current: Row, now: int)
    ensures GatherAll(rows, current, now).seen <= Ids(rows)
  {
    if rows != [] {
      var before, r := rows[..|rows| - 1], rows[|rows| - 1];
      SeenAreRows(before, current, now);
      A.GatherShape(GatherAll(before, current, now), r, current, now);
      assert r in rows && forall x :: x in before ==> x in rows;
    }
  }

  lemma LastIsNew(before: seq<Row>, r: Row, current: Row, now: int)
    requires DistinctIds(before + [r])
    ensures DistinctIds(before) && r.id !in GatherAll(before, current, now).seen
  {
    SeenAreRows(before, current, now);
    assert (before + [r])[|before|] == r;
    assert forall i :: 0 <= i < |before| ==> (before + [r])[i] == before[i];
  }

  /** Rows of distinct ids that together are within the bounds lose none of the usable ones. */
  lemma {:induction false} NothingUsableIsLost(rows: seq<Row>, current: Row, now: int)
    requires DistinctIds(rows) && |rows| <= 64 && Weight(rows) <= 131072
    ensures GatherAll(rows, current, now).facts == Select(rows, UsableAt(current, now))
  {
    if rows != [] {
      var before, r, p := rows[..|rows| - 1], rows[|rows| - 1], UsableAt(current, now);
      assert rows == before + [r];
      LastIsNew(before, r, current, now);
      A.WeightStep(before, r);
      NothingUsableIsLost(before, current, now);
      A.SelectStep(before, r, p);
      A.LighterSelection(rows, p);
      GatherWithin(GatherAll(before, current, now), r, current, now);
    }
  }

  /** So within the bounds the facts are exactly the usable rows, in order. */
  lemma FactsAreTheUsableRows(row: Row, related: seq<Row>, now: int)
    requires DistinctIds([row] + related) && |related| <= 63 && Weight([row] + related) <= 131072
    ensures Facts(row, related, now) == Select([row] + related, UsableAt(row, now))
  {
    NothingUsableIsLost([row] + related, row, now);
  }

  // ---- the rules ------------------------------------------------------------------------

  /** The account of a row: its user id, or else its name, unless that names nobody. */
  predicate Bears(r: Row, account: string) {
    account != "" &&
    if Field(r, "user_id") in {"", "S-1-0-0"} then account == Field(r, "username") && account !in {"-", "unknown"}
    else account == Field(r, "user_id")
  }

  /** A failed login to the account of `c` from the target, as the operating system recorded it. */
  ghost predicate Login(f: Row, c: Row, target: Address) {
    && Field(f, "event_type") == "auth_failure" && Field(f, "src_ip") == target
    && Field(f, "origin") in {"windows", "linux_auth"}
    && exists account :: Bears(f, account) && Bears(c, account)
  }

  /** A native malware detection of the file that the process of `c` runs. */
  predicate Malware(f: Row, c: Row, host: Host) {
    && Field(f, "event_type") == "malware_detection" && Field(f, "origin") == "defender"
    && match host.artifact(Field(f, "file_path"))
       case None => false
       case Some(path) => host.artifact(Field(c, "process_name")) == Some(path)
  }

  /** The connection that a process was seen to make to the target. */
  predicate Connection(c: Row, target: Address) {
    Field(c, "event_type") == "network_connection" && Field(c, "origin") == "sysmon" && Field(c, "dst_ip") == target
  }

  ghost predicate FiveLogins(five: seq<Row>, facts: seq<Row>, c: Row, target: Address) {
    && |five| == 5 && DistinctIds(five)
    && forall i :: 0 <= i < 5 ==> five[i] in facts && Login(five[i], c, target)
  }

  /** What each rule asks of the facts, `c` being that of the current event. */
  ghost predicate Meets(rule: Rule, facts: seq<Row>, c: Row, target: Address, host: Host) {
    match rule
    case RepeatedLoginFailures => Field(c, "event_type") == "auth_failure" && exists five :: FiveLogins(five, facts, c, target)
    case MalwareProcessNetwork => Connection(c, target) && exists f :: f in facts && Malware(f, c, host)
  }

  ghost predicate Founded(rule: Rule, facts: seq<Row>, row: Row, target: Option<Address>, host: Host) {
    && target.Some? && host.isLocal(Field(row, "hostname"))
    && exists c :: c in facts && c.id == row.id && Meets(rule, facts, c, target.value, host)
  }

  lemma BearsAccount(r: Row, account: string)
    ensures Account(r) == Some(account) <==> Bears(r, account)
  {}

  lemma FailureIsLogin(f: Row, c: Row, target: Address)
    ensures Failure(f, c, target) <==> Login(f, c, target)
  {
    if Failure(f, c, target) {
      BearsAccount(f, Account(f).value);
      BearsAccount(c, Account(f).value);
    }
    if Login(f, c, target) {
      var x :| Bears(f, x) && Bears(c, x);
      BearsAccount(f, x);
      BearsAccount(c, x);
    }
  }

  lemma {:induction false} DistinctSelect(facts: seq<Row>, p: Row -> bool)
    requires DistinctIds(facts)
    ensures DistinctIds(Select(facts, p))
  {
    if facts != [] {
      var before := facts[..|facts| - 1];
      DistinctSelect(before, p);
      forall f | f in Select(before, p) ensures f.id != facts[|facts| - 1].id { assert f in before; }
    }
  }

  function Ids(rows: seq<Row>): set<EventId> { set r | r in rows :: r.id }

  lemma {:induction false} IdsCounted(rows: seq<Row>)
    requires DistinctIds(rows)
    ensures |Ids(rows)| == |rows|
  {
    if rows != [] {
      var before, r := rows[..|rows| - 1], rows[|rows| - 1];
      IdsCounted(before);
      assert rows == before + [r];
      assert Ids(rows) == Ids(before) + {r.id} && r.id !in Ids(before);
    }
  }

  lemma FewerIds(a: set<EventId>, b: set<EventId>)
    requires a <= b
    ensures |a| <= |b|
  {
    assert b == a + (b - a);
  }

  /** Five or more failures among the facts are five logins of distinct ids, and conversely. */
  lemma FiveAmong(facts: seq<Row>, c: Row, target: Address)
    requires DistinctIds(facts)
    ensures |Select(facts, Failing(c, target))| >= 5 <==> exists five :: FiveLogins(five, facts, c, target)
  {
    var xs := Select(facts, Failing(c, target));
    forall f { FailureIsLogin(f, c, target); }
    DistinctSelect(facts, Failing(c, target));
    if |xs| >= 5 {
      assert forall i :: 0 <= i < 5 ==> xs[..5][i] == xs[i] && xs[i] in xs;
      assert FiveLogins(xs[..5], facts, c, target);
    }
    if five :| FiveLogins(five, facts, c, target) {
      assert forall r :: r in five ==> r in xs;
      IdsCounted(five);
      IdsCounted(xs);
      FewerIds(Ids(five), Ids(xs));
    }
  }

  lemma OneCurrent(facts: seq<Row>, id: EventId, c: Row)
    requires DistinctIds(facts) && c in facts && c.id == id
    ensures CurrentFact(facts, id).Some? && facts[CurrentFact(facts, id).value] == c
  {
    A.CurrentFound(facts, id);
    assert A.Has(facts, id);
  }

  lemma LoginsMeet(facts: seq<Row>, c: Row, target: Address, host: Host)
    requires DistinctIds(facts)
    ensures A.IsFailureEvent(c) && |Positions(facts, Failing(c, target))| >= 5 <==> Meets(RepeatedLoginFailures, facts, c, target, host)
  {
    FiveAmong(facts, c, target);
    A.PositionsSelect(facts, Failing(c, target));
  }

  lemma DetectionIsMalware(f: Row, c: Row, host: Host)
    ensures Detection(f, c, host) <==> Malware(f, c, host)
  {}

  lemma DetectionsMeet(facts: seq<Row>, c: Row, target: Address, host: Host)
    ensures A.IsConnectionEvent(c, target) && |Positions(facts, Detecting(c, host))| >= 1 <==> Meets(MalwareProcessNetwork, facts, c, target, host)
  {
    A.PositionsSelect(facts, Detecting(c, host));
    var xs := Select(facts, Detecting(c, host));
    forall f { DetectionIsMalware(f, c, host); }
    assert xs != [] ==> xs[0] in xs;
  }

  lemma CurrentMeets(facts: seq<Row>, c: Row, target: Address, host: Host)
    requires DistinctIds(facts)
    ensures A.RuleFor(facts, c, target, host) == Some(RepeatedLoginFailures) <==> Meets(RepeatedLoginFailures, facts, c, target, host)
    ensures A.RuleFor(facts, c, target, host) == Some(MalwareProcessNetwork) <==> Meets(MalwareProcessNetwork, facts, c, target, host)
  {
    LoginsMeet(facts, c, target, host);
    DetectionsMeet(facts, c, target, host);
    A.ConnectionIsNoFailure(c, target);
  }

  /** An assessment of distinct facts finds a rule exactly when they found it. */
  lemma RuleMeans(facts: seq<Row>, row: Row, target: Option<Address>, host: Host, rule: Rule)
    requires DistinctIds(facts)
    ensures AssessFacts(facts, row, target, host).rule == Some(rule) <==> Founded(rule, facts, row, target, host)
  {
    var at := CurrentFact(facts, row.id);
    if target.Some? && at.Some? {
      var c := facts[at.value];
      CurrentMeets(facts, c, target.value, host);
      assert c in facts;
      forall x | x in facts && x.id == row.id ensures x == c { OneCurrent(facts, row.id, x); }
    } else if at.None? {
      A.CurrentFound(facts, row.id);
    }
  }

  // ---- the re-check -----------------------------------------------------------------------

  /**
   * A brief asks for a block of the proposed target, its challenge accepted it, all the rows it cites are
   * facts, and its rule is founded both on all the facts and on those of the current event and the cited
   * rows alone.
   */
  ghost predicate Sanctioned(b: Brief, row: Row, related: seq<Row>, target: Option<Address>, now: int, host: Host) {
    && b.action == BlockIp && b.target == target && b.receipt.accepted && b.receipt.rule.Some?
    && b.receipt.evidence != []
    && (forall i :: 0 <= i < |b.receipt.evidence| ==> A.Has(Facts(row, related, now), b.receipt.evidence[i]))
    && Founded(b.receipt.rule.value, Facts(row, related, now), row, target, host)
    && Founded(b.receipt.rule.value, Facts(row, Cited(related, b.receipt.evidence), now), row, target, host)
  }

  /** Exactly such briefs pass the re-check. */
  lemma AuthorizeMeans(b: Brief, row: Row, related: seq<Row>, target: Option<Address>, now: int, host: Host)
    ensures Authorize(b, row, related, target, now, host) <==> Sanctioned(b, row, related, target, now, host)
  {
    var all, cited := Facts(row, related, now), Facts(row, Cited(related, b.receipt.evidence), now);
    FactsSound(row, related, now);
    FactsSound(row, Cited(related, b.receipt.evidence), now);
    if b.receipt.rule.Some? {
      RuleMeans(all, row, target, host, b.receipt.rule.value);
      RuleMeans(cited, row, target, host, b.receipt.rule.value);
    }
    assert (forall id :: id in b.receipt.evidence ==> A.Has(all, id))
      <==> forall i :: 0 <= i < |b.receipt.evidence| ==> A.Has(all, b.receipt.evidence[i]);
  }

  /** An authorized block is founded on fresh local facts that the current event and the cited rows hold alone. */
  lemma AuthorizedBlockIsSupported(b: Brief, row: Row, related: seq<Row>, target: Option<Address>, now: int, host: Host)
    requires Authorize(b, row, related, target, now, host)
    ensures b.receipt.rule.Some? && target.Some? && b.target == target
    ensures var facts := Facts(row, Cited(related, b.receipt.evidence), now);
            && Founded(b.receipt.rule.value, facts, row, target, host)
            && forall f :: f in facts ==> Rests(f, row, related, b, now)
  {
    AuthorizeMeans(b, row, related, target, now, host);
    FactsSound(row, Cited(related, b.receipt.evidence), now);
  }

  /** A row that the program may rest a block on: the current row, or one that the brief cites. */
  predicate Rests(f: Row, row: Row, related: seq<Row>, b: Brief, now: int) {
    (f == row || (f in related && f.id in b.receipt.evidence)) && Usable(f, row, now)
  }

  /** An authorized block for repeated logins rests on five failed logins from the blocked address, of
      distinct ids, to the account of a failed login that is the current event. */
  lemma AuthorizedLogins(b: Brief, row: Row, related: seq<Row>, target: Option<Address>, now: int, host: Host)
      returns (c: Row, five: seq<Row>)
    requires Authorize(b, row, related, target, now, host) && b.receipt.rule == Some(RepeatedLoginFailures)
    ensures b.target == target && target.Some? && |five| == 5 && DistinctIds(five)
    ensures c.id == row.id && Rests(c, row, related, b, now) && Field(c, "event_type") == "auth_failure"
    ensures forall i :: 0 <= i < 5 ==> Rests(five[i], row, related, b, now) && Login(five[i], c, target.value)
  {
    var facts := Facts(row, Cited(related, b.receipt.evidence), now);
    AuthorizeMeans(b, row, related, target, now, host);
    FactsSound(row, Cited(related, b.receipt.evidence), now);
    c :| c in facts && c.id == row.id && Meets(RepeatedLoginFailures, facts, c, target.value, host);
    five :| FiveLogins(five, facts, c, target.value);
  }

  /** An authorized block for malware rests on a native detection of the file whose process, in the
      current event, connected to the blocked address. */
  lemma AuthorizedMalware(b: Brief, row: Row, related: seq<Row>, target: Option<Address>, now: int, host: Host)
      returns (c: Row, f: Row)
    requires Authorize(b, row, related, target, now, host) && b.receipt.rule == Some(MalwareProcessNetwork)
    ensures b.target == target && target.Some? && c.id == row.id && Connection(c, target.value) && Malware(f, c, host)
    ensures Rests(c, row, related, b, now) && Rests(f, row, related, b, now)
  {
    var facts := Facts(row, Cited(related, b.receipt.evidence), now);
    AuthorizeMeans(b, row, related, target, now, host);
    FactsSound(row, Cited(related, b.receipt.evidence), now);
    c :| c in facts && c.id == row.id && Meets(MalwareProcessNetwork, facts, c, target.value, host);
    f :| f in facts && Malware(f, c, host);
  }

  // ---- the review ---------------------------------------------------------------------------

  predicate Says(s: string, limit: nat) { |s| <= limit && exists i :: 0 <= i < |s| && s[i] !in {' ', '\t', '\n', '\r'} }

  lemma SaysText(s: string, limit: nat)
    ensures TextOk(s, limit) <==> Says(s, limit)
  {
    assert forall i :: 0 <= i < |s| ==> s[i] in s;
    assert forall c :: c in s ==> exists i :: 0 <= i < |s| && s[i] == c;
  }

  predicate Refers(refs: Option<seq<nat>>, n: nat) {
    refs.Some? && |refs.value| <= 64 && forall i :: 0 <= i < |refs.value| ==> refs.value[i] < n
  }

  predicate Explains(h: Hypothesis, n: nat) {
    h.kind.Some? && Says(h.summary, 2000) && Refers(h.supports, n) && Refers(h.against, n)
  }

  predicate Competing(hs: seq<Hypothesis>, n: nat) {
    && 2 <= |hs| <= 6
    && (forall i :: 0 <= i < |hs| ==> Explains(hs[i], n))
    && (exists i, j :: 0 <= i < |hs| && 0 <= j < |hs| && hs[i].kind == Some(Malicious) && hs[j].kind == Some(Benign))
  }

  predicate Grounded(xs: seq<Assertion>, facts: seq<Row>) {
    && 1 <= |xs| <= 64
    && forall i :: 0 <= i < |xs| ==> xs[i].fact < |facts| && xs[i].field in FIELDS && xs[i].value == Field(facts[xs[i].fact], xs[i].field)
  }

  predicate OneCites(xs: seq<Assertion>, n: nat) { exists i :: 0 <= i < |xs| && xs[i].fact == n }

  predicate CitesAll(xs: seq<Assertion>, required: seq<nat>) { forall k :: 0 <= k < |required| ==> OneCites(xs, required[k]) }

  /** A draft that stands: every text says something, both explanations compete, each assertion copies a
      field of a fact, and a block is of the proposed target and cites every required fact. */
  predicate Stands(d: Draft, facts: seq<Row>, a: Assessment, target: Option<Address>) {
    && d.action.Some? && d.confidence.Some? && 0.0 <= d.confidence.value <= 1.0
    && |d.texts| == 7 && (forall i :: 0 <= i < 7 ==> Says(d.texts[i], 8000))
    && d.hypotheses.Some? && Competing(d.hypotheses.value, |facts|)
    && d.assertions.Some? && Grounded(d.assertions.value, facts)
    && (d.action == Some(BlockIp) ==> target.Some? && d.target == target && a.rule.Some? && CitesAll(d.assertions.value, a.required))
  }

  lemma TextsSay(texts: seq<string>)
    ensures |texts| == 7 && (forall t :: t in texts ==> TextOk(t, 8000)) <==> |texts| == 7 && forall i :: 0 <= i < 7 ==> Says(texts[i], 8000)
  {
    forall t: string { SaysText(t, 8000); }
    if |texts| == 7 { assert forall t :: t in texts <==> exists i :: 0 <= i < 7 && texts[i] == t; }
  }

  lemma RefsRefer(refs: Option<seq<nat>>, facts: seq<Row>)
    ensures RefsOk(refs, facts) <==> Refers(refs, |facts|)
  {
    if RefsOk(refs, facts) { assert forall i :: 0 <= i < |refs.value| ==> refs.value[i] in refs.value; }
  }

  lemma HypothesesCompete(hs: seq<Hypothesis>, facts: seq<Row>)
    ensures Competing(hs, |facts|) <==>
              && 2 <= |hs| <= 6 && (forall h :: h in hs ==> HypothesisOk(h, facts))
              && (exists h :: h in hs && h.kind == Some(Malicious)) && (exists h :: h in hs && h.kind == Some(Benign))
  {
    forall h ensures HypothesisOk(h, facts) <==> Explains(h, |facts|) {
      SaysText(h.summary, 2000);
      RefsRefer(h.supports, facts);
      RefsRefer(h.against, facts);
    }
    assert forall h :: h in hs <==> exists i :: 0 <= i < |hs| && hs[i] == h;
  }

  lemma AssertionsGrounded(xs: seq<Assertion>, facts: seq<Row>)
    ensures Grounded(xs, facts) <==> 1 <= |xs| <= 64 && forall x :: x in xs ==> AssertionOk(x, facts)
  {
    if forall x :: x in xs ==> AssertionOk(x, facts) { assert forall i :: 0 <= i < |xs| ==> AssertionOk(xs[i], facts); }
  }

  lemma CitedByOne(xs: seq<Assertion>, n: nat)
    ensures Cites(xs, n) <==> OneCites(xs, n)
  {
    assert forall i :: 0 <= i < |xs| ==> xs[i] in xs;
  }

  lemma AllCited(xs: seq<Assertion>, required: seq<nat>)
    ensures CitesAll(xs, required) <==> forall i :: i in required ==> Cites(xs, i)
  {
    forall n: nat { CitedByOne(xs, n); }
    assert forall k :: 0 <= k < |required| ==> required[k] in required;
  }

  /** The guardrails let through exactly the drafts that stand. */
  lemma ValidStands(d: Draft, facts: seq<Row>, a: Assessment, target: Option<Address>)
    ensures ValidDraft(d, facts, a, target) <==> Stands(d, facts, a, target)
  {
    TextsSay(d.texts);
    if d.hypotheses.Some? { HypothesesCompete(d.hypotheses.value, facts); }
    if d.assertions.Some? { AssertionsGrounded(d.assertions.value, facts); AllCited(d.assertions.value, a.required); }
  }

  /** A challenge that can be read: a decision, at most sixteen objections, and some cited facts. */
  predicate Fair(c: Critic, n: nat) {
    && c.accept.Some?
    && c.objections.Some? && |c.objections.value| <= 16
    && (forall i :: 0 <= i < |c.objections.value| ==> Says(c.objections.value[i], 2000))
    && c.citations.Some? && 1 <= |c.citations.value|
    && forall i :: 0 <= i < |c.citations.value| ==> c.citations.value[i] < n
  }

  predicate Lists(xs: seq<nat>, n: nat) { exists i :: 0 <= i < |xs| && xs[i] == n }

  /** It accepts without an objection, and cites every fact that a block requires. */
  predicate Agrees(c: Critic, d: Draft, required: seq<nat>) {
    && c.accept == Some(true) && c.objections == Some([])
    && (d.action == Some(BlockIp) ==>
          c.citations.Some? && forall k :: 0 <= k < |required| ==> Lists(c.citations.value, required[k]))
  }

  lemma CriticFair(c: Critic, facts: seq<Row>)
    ensures CriticOk(c, facts) <==> Fair(c, |facts|)
  {
    if c.objections.Some? {
      forall i | 0 <= i < |c.objections.value| { SaysText(c.objections.value[i], 2000); }
      assert forall x :: x in c.objections.value <==> exists i :: 0 <= i < |c.objections.value| && c.objections.value[i] == x;
    }
    if c.citations.Some? { AllBelow(c.citations.value, |facts|); }
  }

  lemma AllBelow(xs: seq<nat>, n: nat)
    ensures (forall i :: i in xs ==> i < n) <==> forall i :: 0 <= i < |xs| ==> xs[i] < n
  {
    assert forall i :: 0 <= i < |xs| ==> xs[i] in xs;
  }

  lemma AllAmong(required: seq<nat>, cited: seq<nat>)
    ensures (forall i :: i in required ==> i in cited) <==> forall k :: 0 <= k < |required| ==> Lists(cited, required[k])
  {
    assert forall k :: 0 <= k < |required| ==> required[k] in required;
    assert forall n: nat :: n in cited <==> Lists(cited, n);
  }

  lemma CriticAgrees(c: Critic, d: Draft, a: Assessment)
    requires c.accept.Some? && c.objections.Some? && c.citations.Some?
    ensures CriticAccepts(c, d, a) <==> Agrees(c, d, a.required)
  {
    AllAmong(a.required, c.citations.value);
  }

  lemma RouteMeans(row: Row, related: seq<Row>, target: Option<Address>, now: int, host: Host)
    ensures Assess(row, related, target, now, host).route == VerifiedCritical
       <==> Founded(MalwareProcessNetwork, Facts(row, related, now), row, target, host)
  {
    FactsSound(row, related, now);
    RuleMeans(Facts(row, related, now), row, target, host, MalwareProcessNetwork);
  }

  /**
   * How a review ends. A finding founded on a native detection is answered without the model, unless a
   * deeper look was asked for; otherwise there is a brief exactly when the draft stands and its challenge can be
   * read, and the brief asks for a block exactly when the draft does and the challenge agrees. A brief carries the
   * rule that was found, and the ids of the facts it requires.
   */
  lemma ReviewOutcome(row: Row, related: seq<Row>, target: Option<Address>, now: int, host: Host, mode: Mode,
                      draft: Option<Draft>, critic: Critic)
    ensures var facts, a := Facts(row, related, now), Assess(row, related, target, now, host);
            var r := Review(row, related, target, now, host, mode, draft, critic);
            var fast := Founded(MalwareProcessNetwork, facts, row, target, host) && mode != Deep;
            && (r.Ok? <==> || fast
                           || (&& facts != [] && mode != FastOnly && draft.Some?
                               && Stands(draft.value, facts, a, target) && Fair(critic, |facts|)))
            && (r.Ok? && fast ==>
                  r.value.action == BlockIp && r.value.target == target && r.value.confidence == 1.0
                  && r.value.receipt.accepted && r.value.needsDeepReview)
            && (r.Ok? && !fast ==>
                  var agrees := Agrees(critic, draft.value, a.required);
                  && r.value.action == (if agrees then draft.value.action.value else HumanReview)
                  && r.value.target == draft.value.target && r.value.confidence == draft.value.confidence.value
                  && r.value.receipt.accepted == agrees && !r.value.needsDeepReview)
            && (r.Ok? ==> r.value.receipt.rule == a.rule && forall id ::
                  id in r.value.receipt.evidence <==> exists i :: 0 <= i < |facts| && i in a.required && facts[i].id == id)
  {
    var facts, a := Facts(row, related, now), Assess(row, related, target, now, host);
    RouteMeans(row, related, target, now, host);
    if draft.Some? {
      ValidStands(draft.value, facts, a, target);
      CriticFair(critic, facts);
      if CriticOk(critic, facts) { CriticAgrees(critic, draft.value, a); }
    }
    if a.route == VerifiedCritical {
      A.CriticalDraftIsValid(facts, row, target, host);
      assert CurrentFact(facts, row.id).Some?;
    }
  }
}
