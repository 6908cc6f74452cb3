/** What the quotas guarantee over whole runs, although old entries are thrown away. */
module QuotaRuns {
  import opened Wrappers
  import opened Quotas

  // ---- one window over a run ---------------------------------------------------------------

  predicate Rising(times: seq<real>) { forall i, j :: 0 <= i < j < |times| ==> times[i] <= times[j] }

  /** The queue, and every admission ever made. */
  datatype Ledger = Ledger(queue: seq<real>, admitted: seq<real>)

  function Entered(rule: Rule, l: Ledger, now: real): Ledger {
    Ledger(Offered(rule, l.queue, now), if HasRoom(rule, l.queue, now) then l.admitted + [now] else l.admitted)
  }

  function Run(rule: Rule, times: seq<real>): Ledger {
    if times == [] then Ledger([], []) else Entered(rule, Run(rule, times[..|times| - 1]), times[|times| - 1])
  }

  /** `x` lies in the window that opens at `start`. */
  predicate Within(rule: Rule, start: real, x: real) { start <= x && !Expired(rule, x, start) }

  function Count(rule: Rule, times: seq<real>, start: real): nat {
    if times == [] then 0 else Count(rule, times[..|times| - 1], start) + if Within(rule, start, times[|times| - 1]) then 1 else 0
  }

  /** The queue is the end of the admissions; what came before has expired. */
  ghost predicate Kept(rule: Rule, l: Ledger, now: real) {
    && |l.queue| <= |l.admitted| && l.queue == l.admitted[|l.admitted| - |l.queue|..]
    && (forall i :: 0 <= i < |l.admitted| ==> l.admitted[i] <= now)
    && Rising(l.admitted)
    && forall i :: 0 <= i < |l.admitted| - |l.queue| ==> Expired(rule, now, l.admitted[i])
  }

  lemma {:induction false} TrimCuts(rule: Rule, queue: seq<real>, now: real)
    ensures var kept := Trim(rule, queue, now);
            && |kept| <= |queue| && kept == queue[|queue| - |kept|..]
            && (forall i :: 0 <= i < |queue| - |kept| ==> Expired(rule, now, queue[i]))
            && (kept != [] ==> !Expired(rule, now, kept[0]))
  {
    if queue != [] && Expired(rule, now, queue[0]) {
      var kept := Trim(rule, queue, now);
      TrimCuts(rule, queue[1..], now);
      assert queue[1..][|queue[1..]| - |kept|..] == queue[|queue| - |kept|..];
      forall i | 0 <= i < |queue| - |kept| ensures Expired(rule, now, queue[i]) {
        if i > 0 { assert queue[i] == queue[1..][i - 1]; }
      }
    }
  }

  lemma TrimKeeps(rule: Rule, l: Ledger, before: real, now: real)
    requires Kept(rule, l, before) && before <= now
    ensures Kept(rule, l.(queue := Trim(rule, l.queue, now)), now)
    ensures forall i :: 0 <= i < |l.admitted| ==>
              (Expired(rule, now, l.admitted[i]) <==> i < |l.admitted| - |Trim(rule, l.queue, now)|)
  {
    var kept := Trim(rule, l.queue, now);
    TrimCuts(rule, l.queue, now);
    var n, m := |l.admitted| - |l.queue|, |l.admitted| - |kept|;
    assert l.queue[|l.queue| - |kept|..] == l.admitted[m..];
    forall i | 0 <= i < |l.admitted| ensures Expired(rule, now, l.admitted[i]) <==> i < m {
      if n <= i < m { assert l.admitted[i] == l.queue[i - n]; }
      else if i >= m { assert kept[0] == l.admitted[m] && l.admitted[m] <= l.admitted[i]; }
    }
  }

  lemma AppendKeeps(rule: Rule, l: Ledger, now: real)
    requires Kept(rule, l, now)
    ensures Kept(rule, Ledger(l.queue + [now], l.admitted + [now]), now)
  {
    var n := |l.admitted| - |l.queue|;
    assert (l.admitted + [now])[n..] == l.admitted[n..] + [now];
  }

  lemma {:induction false} RunKeeps(rule: Rule, times: seq<real>, now: real)
    requires Rising(times) && (times != [] ==> times[|times| - 1] <= now)
    ensures Kept(rule, Run(rule, times), now)
  {
    if times != [] {
      var last, before := times[|times| - 1], Run(rule, times[..|times| - 1]);
      RunKeeps(rule, times[..|times| - 1], last);
      TrimKeeps(rule, before, last, last);
      var trimmed := before.(queue := Trim(rule, before.queue, last));
      AppendKeeps(rule, trimmed, last);
      Aged(rule, Run(rule, times), last, now);
    }
  }

  lemma Aged(rule: Rule, l: Ledger, before: real, now: real)
    requires Kept(rule, l, before) && before <= now
    ensures Kept(rule, l, now)
  {}

  lemma {:induction false} CountAtMost(rule: Rule, times: seq<real>, start: real, k: nat)
    requires k <= |times| && forall i :: 0 <= i < |times| - k ==> !Within(rule, start, times[i])
    ensures Count(rule, times, start) <= k
  {
    if k > 0 { CountAtMost(rule, times[..|times| - 1], start, k - 1); }
    else if times != [] { CountAtMost(rule, times[..|times| - 1], start, 0); }
  }

  /** With a clock that never goes back, no window of the span holds more admissions than the limit. */
  lemma {:induction false} WindowIsBounded(rule: Rule, times: seq<real>, start: real)
    requires Rising(times) && rule.limit >= 0 && rule.span >= 0.0
    ensures Count(rule, Run(rule, times).admitted, start) <= rule.limit
  {
    if times != [] {
      var last, before := times[|times| - 1], Run(rule, times[..|times| - 1]);
      WindowIsBounded(rule, times[..|times| - 1], start);
      if HasRoom(rule, before.queue, last) {
        var l := Run(rule, times);
        assert l.admitted[..|l.admitted| - 1] == before.admitted;
        if Within(rule, start, last) {
          RunKeeps(rule, times[..|times| - 1], last);
          TrimKeeps(rule, before, last, last);
          CountAtMost(rule, before.admitted, start, |Trim(rule, before.queue, last)|);
        }
      }
    }
  }

  /** Admissions that have not expired at `now`. */
  function Recent(rule: Rule, times: seq<real>, now: real): nat {
    if times == [] then 0 else Recent(rule, times[..|times| - 1], now) + if Expired(rule, now, times[|times| - 1]) then 0 else 1
  }

  lemma {:induction false} RecentAfter(rule: Rule, times: seq<real>, now: real, m: nat)
    requires m <= |times| && forall i :: 0 <= i < |times| ==> (Expired(rule, now, times[i]) <==> i < m)
    ensures Recent(rule, times, now) == |times| - m
  {
    if times != [] { RecentAfter(rule, times[..|times| - 1], now, if m < |times| then m else m - 1); }
  }

  /** A request is refused exactly when the limit has been used up within the span before it. */
  lemma RefusedExactlyWhenSpent(rule: Rule, times: seq<real>, now: real)
    requires Rising(times) && (times != [] ==> times[|times| - 1] <= now)
    ensures HasRoom(rule, Run(rule, times).queue, now) <==> Recent(rule, Run(rule, times).admitted, now) < rule.limit
  {
    var l := Run(rule, times);
    RunKeeps(rule, times, now);
    TrimKeeps(rule, l, now, now);
    RecentAfter(rule, l.admitted, now, |l.admitted| - |Trim(rule, l.queue, now)|);
  }

  // ---- the hourly allowance ----------------------------------------------------------------------

  datatype Request = Request(stamp: real, attempt: Attempt)

  /** The stamps of the requests that reach the allowance. */
  function Stamps(requests: seq<Request>): seq<real> {
    if requests == [] then []
    else
      var r := requests[|requests| - 1];
      Stamps(requests[..|requests| - 1]) + if Asks(r.attempt) then [r.stamp] else []
  }

  lemma {:induction false} StampsRise(requests: seq<Request>)
    requires forall i, j :: 0 <= i < j < |requests| ==> requests[i].stamp <= requests[j].stamp
    ensures Rising(Stamps(requests))
    ensures forall x :: x in Stamps(requests) ==> requests != [] && x <= requests[|requests| - 1].stamp
  {
    if requests != [] {
      var rest := requests[..|requests| - 1];
      StampsRise(rest);
      var stamps, last := Stamps(rest), requests[|requests| - 1].stamp;
      assert forall x :: x in stamps ==> x <= last;
      forall i, j | 0 <= i < j < |stamps + [last]| ensures (stamps + [last])[i] <= (stamps + [last])[j] {
        assert stamps[i] in stamps;
      }
    }
  }

  /** Any 3600 seconds, whatever the requests meet, hold at most the allowance of cloud calls. */
  lemma HourlyAllowance(requests: seq<Request>, limit: nat, start: real)
    requires forall i, j :: 0 <= i < j < |requests| ==> requests[i].stamp <= requests[j].stamp
    ensures Count(Hourly(limit), Run(Hourly(limit), Stamps(requests)).admitted, start) <= limit
  {
    StampsRise(requests);
    WindowIsBounded(Hourly(limit), Stamps(requests), start);
  }

  // ---- visitor sessions -----------------------------------------------------------------------------

  /** One request to the pool, and the token a session opened by it would get. */
  datatype Visit = Visit(token: Token, create: bool, issued: Token, now: real)

  /** The pool with, for each live session, the times it has been offered since it was opened. */
  datatype Lobby = Lobby(pool: Pool, offers: map<Token, seq<real>>)

  /** The session a visit is counted against, if it reaches one. */
  function Session(l: Lobby, capacity: int, ttl: real, v: Visit): Option<Token> {
    var live := Live(l.pool, v.now, ttl);
    if v.token in live then Some(v.token) else if v.create && |live| < capacity then Some(v.issued) else None
  }

  function Visited(l: Lobby, capacity: int, ttl: real, v: Visit): Lobby {
    var live := Live(l.pool, v.now, ttl);
    var kept := map t | t in live && t in l.offers :: l.offers[t];
    var next := Acquired(l.pool, capacity, ttl, v.token, v.create, v.issued, v.now).0;
    match Session(l, capacity, ttl, v)
    case None => Lobby(next, kept)
    case Some(t) => Lobby(next, kept[t := (if t == v.token && t in kept then kept[t] else []) + [v.now]])
  }

  function Visits(capacity: int, ttl: real, visits: seq<Visit>): Lobby {
    if visits == [] then Lobby(map[], map[])
    else Visited(Visits(capacity, ttl, visits[..|visits| - 1]), capacity, ttl, visits[|visits| - 1])
  }

  predicate InOrder(visits: seq<Visit>) { forall i, j :: 0 <= i < j < |visits| ==> visits[i].now <= visits[j].now }

  /** When a live session has been offered a request since it was opened. */
  function Offers(l: Lobby, t: Token): seq<real> { if t in l.offers then l.offers[t] else [] }

  /** A session's queue is the window over the times it was offered. */
  ghost predicate Follows(requests: seq<real>, times: seq<real>, now: real) {
    Rising(times) && requests == Run(PerVisitor(), times).queue && forall x :: x in times ==> x <= now
  }

  ghost predicate Accounted(l: Lobby, capacity: int, now: real) {
    |l.pool| <= capacity && forall t :: t in l.pool ==> Follows(l.pool[t].requests, Offers(l, t), now)
  }

  lemma LiveIsSmaller(pool: Pool, now: real, ttl: real)
    ensures |Live(pool, now, ttl)| <= |pool|
  {
    Smaller(Live(pool, now, ttl).Keys, pool.Keys);
  }

  lemma {:induction false} Smaller(a: set<Token>, b: set<Token>)
    requires a <= b
    ensures |a| <= |b|
  {
    if a != {} {
      var x :| x in a;
      Smaller(a - {x}, b - {x});
    }
  }

  lemma RunGrows(rule: Rule, times: seq<real>, now: real)
    ensures Run(rule, times + [now]) == Entered(rule, Run(rule, times), now)
  {
    assert (times + [now])[..|times|] == times;
  }

  lemma OfferFollows(requests: seq<real>, times: seq<real>, now: real)
    requires Follows(requests, times, now)
    ensures Follows(Offered(PerVisitor(), requests, now), times + [now], now)
  {
    RunGrows(PerVisitor(), times, now);
    forall i, j | 0 <= i < j < |times + [now]| ensures (times + [now])[i] <= (times + [now])[j] { assert times[i] in times; }
  }

  /** What a visit leaves of the session it is counted against. */
  lemma SessionAfter(l: Lobby, capacity: int, ttl: real, v: Visit, t: Token)
    requires Session(l, capacity, ttl, v) == Some(t)
    ensures var next, mine := Visited(l, capacity, ttl, v), t == v.token && t in Live(l.pool, v.now, ttl);
            && t in next.pool && t in next.offers
            && next.pool[t].requests == Offered(PerVisitor(), if mine then l.pool[t].requests else [], v.now)
            && next.offers[t] == (if mine then Offers(l, t) else []) + [v.now]
  {}

  lemma OthersAfter(l: Lobby, capacity: int, ttl: real, v: Visit, t: Token)
    requires Session(l, capacity, ttl, v) != Some(t) && t in Visited(l, capacity, ttl, v).pool
    ensures var next := Visited(l, capacity, ttl, v);
            t in l.pool && next.pool[t] == l.pool[t] && Offers(next, t) == Offers(l, t)
  {}

  lemma VisitFits(l: Lobby, capacity: int, ttl: real, v: Visit)
    requires |l.pool| <= capacity
    ensures |Visited(l, capacity, ttl, v).pool| <= capacity
  {
    LiveIsSmaller(l.pool, v.now, ttl);
  }

  lemma VisitIsAccounted(l: Lobby, capacity: int, ttl: real, before: real, v: Visit)
    requires Accounted(l, capacity, before) && before <= v.now
    ensures Accounted(Visited(l, capacity, ttl, v), capacity, v.now)
  {
    VisitFits(l, capacity, ttl, v);
    var next := Visited(l, capacity, ttl, v);
    forall t | t in next.pool ensures Follows(next.pool[t].requests, Offers(next, t), v.now) {
      if Session(l, capacity, ttl, v) == Some(t) {
        var mine := t == v.token && t in Live(l.pool, v.now, ttl);
        SessionAfter(l, capacity, ttl, v, t);
        OfferFollows(if mine then l.pool[t].requests else [], if mine then Offers(l, t) else [], v.now);
      } else {
        OthersAfter(l, capacity, ttl, v, t);
      }
    }
  }

  lemma {:induction false} VisitsAreAccounted(capacity: nat, ttl: real, visits: seq<Visit>, now: real)
    requires InOrder(visits) && (visits != [] ==> visits[|visits| - 1].now <= now)
    ensures Accounted(Visits(capacity, ttl, visits), capacity, now)
  {
    if visits != [] {
      var last := visits[|visits| - 1];
      VisitsAreAccounted(capacity, ttl, visits[..|visits| - 1], last.now);
      VisitIsAccounted(Visits(capacity, ttl, visits[..|visits| - 1]), capacity, ttl, last.now, last);
    }
  }

  /**
   * Over any run of visits the pool never outgrows its capacity, and no closed minute of a live
   * session holds more than 300 admitted requests.
   */
  lemma VisitorsAreBounded(capacity: nat, ttl: real, visits: seq<Visit>, t: Token, start: real)
    requires InOrder(visits)
    ensures var l := Visits(capacity, ttl, visits);
            && |l.pool| <= capacity
            && (t in l.pool ==> Count(PerVisitor(), Run(PerVisitor(), Offers(l, t)).admitted, start) <= 300)
  {
    VisitsAreAccounted(capacity, ttl, visits, if visits == [] then 0.0 else visits[|visits| - 1].now);
    var l := Visits(capacity, ttl, visits);
    if t in l.pool { WindowIsBounded(PerVisitor(), Offers(l, t), start); }
  }

  /**
   * A visit is granted exactly when it has a session, its own or one there is room to open, that has
   * not used up the last minute; and what it is granted is that session.
   */
  lemma WhoIsGranted(capacity: nat, ttl: real, visits: seq<Visit>, v: Visit)
    requires InOrder(visits + [v])
    ensures var l := Visits(capacity, ttl, visits);
            var access, session := Acquired(l.pool, capacity, ttl, v.token, v.create, v.issued, v.now).1, Session(l, capacity, ttl, v);
            var spent := Recent(PerVisitor(), Run(PerVisitor(), Offers(l, v.token)).admitted, v.now) >= 300;
            && (access.Granted? <==> session.Some? && !(v.token in Live(l.pool, v.now, ttl) && spent))
            && (access.Granted? ==> Some(access.token) == session)
  {
    var l := Visits(capacity, ttl, visits);
    assert forall i :: 0 <= i < |visits| ==> visits[i] == (visits + [v])[i];
    if visits != [] { assert (visits + [v])[|visits| - 1].now <= (visits + [v])[|visits|].now; }
    VisitsAreAccounted(capacity, ttl, visits, v.now);
    if v.token in l.pool {
      var times := Offers(l, v.token);
      if times != [] { assert times[|times| - 1] in times; }
      RefusedExactlyWhenSpent(PerVisitor(), times, v.now);
    }
  }

  // ---- the limits in seconds ---------------------------------------------------------------------

  /** The positions of the times from `start` on and before `end`, or up to it. */
  function Between(times: seq<real>, start: real, end: real, closed: bool): set<nat> {
    set i: nat | i < |times| && start <= times[i] && (times[i] < end || (closed && times[i] == end))
  }

  lemma {:induction false} CountIsBetween(rule: Rule, times: seq<real>, start: real)
    ensures Count(rule, times, start) == |Between(times, start, start + rule.span, rule.closed)|
  {
    if times != [] {
      var n := |times| - 1;
      CountIsBetween(rule, times[..n], start);
      assert Between(times, start, start + rule.span, rule.closed)
          == Between(times[..n], start, start + rule.span, rule.closed) + if Within(rule, start, times[n]) then {n} else {};
    }
  }

  /** The positions of the times less than `span` before `now`, or exactly that. */
  function Since(times: seq<real>, now: real, span: real, closed: bool): set<nat> {
    set i: nat | i < |times| && (now - times[i] < span || (closed && now - times[i] == span))
  }

  lemma {:induction false} RecentIsSince(rule: Rule, times: seq<real>, now: real)
    ensures Recent(rule, times, now) == |Since(times, now, rule.span, rule.closed)|
  {
    if times != [] {
      var n := |times| - 1;
      RecentIsSince(rule, times[..n], now);
      assert Since(times, now, rule.span, rule.closed)
          == Since(times[..n], now, rule.span, rule.closed) + if Expired(rule, now, times[n]) then {} else {n};
    }
  }

  /** With a clock that never goes back, the allowance admits a call exactly when fewer than the limit were admitted
      in the hour before it, and so no hour, without its last instant, holds more. */
  lemma HourInSeconds(requests: seq<Request>, limit: nat, start: real, now: real)
    requires forall i, j :: 0 <= i < j < |requests| ==> requests[i].stamp <= requests[j].stamp
    requires requests != [] ==> requests[|requests| - 1].stamp <= now
    ensures var l := Run(Hourly(limit), Stamps(requests));
            && |Between(l.admitted, start, start + 3600.0, false)| <= limit
            && (HasRoom(Hourly(limit), l.queue, now) <==> |Since(l.admitted, now, 3600.0, false)| < limit)
  {
    HourlyAllowance(requests, limit, start);
    StampsRise(requests);
    var times := Stamps(requests);
    if times != [] { assert times[|times| - 1] in times; }
    RefusedExactlyWhenSpent(Hourly(limit), times, now);
    CountIsBetween(Hourly(limit), Run(Hourly(limit), times).admitted, start);
    RecentIsSince(Hourly(limit), Run(Hourly(limit), times).admitted, now);
  }

  /** No minute of a live session, its last instant included, holds more than 300 admitted requests. */
  lemma MinuteInSeconds(capacity: nat, ttl: real, visits: seq<Visit>, t: Token, start: real)
    requires InOrder(visits) && t in Visits(capacity, ttl, visits).pool
    ensures var admitted := Run(PerVisitor(), Offers(Visits(capacity, ttl, visits), t)).admitted;
            |Between(admitted, start, start + 60.0, true)| <= 300
  {
    VisitorsAreBounded(capacity, ttl, visits, t, start);
    CountIsBetween(PerVisitor(), Run(PerVisitor(), Offers(Visits(capacity, ttl, visits), t)).admitted, start);
  }

  // ---- one visit -----------------------------------------------------------------------------------

  /** The requests of the last minute of a queue that is cut from the front. */
  predicate LastMinute(requests: seq<real>, recent: seq<real>, now: real) {
    exists k :: 0 <= k <= |requests| && recent == requests[k..]
                && (forall i :: 0 <= i < k ==> now > requests[i] + 60.0) && (k < |requests| ==> now <= requests[k] + 60.0)
  }

  lemma TrimIsLastMinute(requests: seq<real>, now: real)
    ensures LastMinute(requests, Trim(PerVisitor(), requests, now), now)
  {
    TrimCuts(PerVisitor(), requests, now);
    var recent := Trim(PerVisitor(), requests, now);
    var k := |requests| - |recent|;
    assert recent == requests[k..];
  }

  predicate Current(pool: Pool, t: Token, now: real, ttl: real) { t in pool && now <= pool[t].seen + ttl }

  /**
   * How a visit ends. Sessions idle for longer than the limit are gone first. Without a session the visit fails
   * unless it asks for one and there is room; its session's requests are those of the last minute, and below 300 of
   * them the visit is granted, counted and renews the session, and else it is refused and renews nothing.
   */
  lemma VisitOutcome(pool: Pool, capacity: int, ttl: real, token: Token, create: bool, issued: Token, now: real) returns (recent: seq<real>)
    ensures var (pool', access) := Acquired(pool, capacity, ttl, token, create, issued, now);
            var live := map t | t in pool && Current(pool, t, now, ttl) :: pool[t];
            var mine := Current(pool, token, now, ttl);
            var t := if mine then token else issued;
            && (access == Gone <==> !mine && !create)
            && (access == Crowded <==> !mine && create && |live| >= capacity)
            && (access in {Gone, Crowded} ==> pool' == live)
            && (access !in {Gone, Crowded} ==>
                  && LastMinute(if mine then pool[token].requests else [], recent, now)
                  && access == (if |recent| < 300 then Granted(t, !mine) else Limited)
                  && pool' == live[t := if |recent| < 300 then Entry(now, recent + [now]) else Entry(pool[token].seen, recent)])
  {
    var live := map t | t in pool && Current(pool, t, now, ttl) :: pool[t];
    assert live == Live(pool, now, ttl);
    var requests := if token in live then pool[token].requests else [];
    recent := Trim(PerVisitor(), requests, now);
    TrimIsLastMinute(requests, now);
  }
}
