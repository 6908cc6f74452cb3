/** The website's request quotas: a shared hourly allowance, and a per-visitor rate inside a bounded pool. */
module Quotas {
  // ---- a sliding window --------------------------------------------------------------------

  /** At most `limit` admissions in any `span`; with `closed` an entry of exactly that age still counts. */
  datatype Rule = Rule(limit: int, span: real, closed: bool)

  predicate Expired(rule: Rule, now: real, x: real) {
    if rule.closed then now - x > rule.span else now - x >= rule.span
  }

  function Trim(rule: Rule, queue: seq<real>, now: real): seq<real> {
    if queue != [] && Expired(rule, now, queue[0]) then Trim(rule, queue[1..], now) else queue
  }

  predicate HasRoom(rule: Rule, queue: seq<real>, now: real) { |Trim(rule, queue, now)| < rule.limit }

  /** The queue after a request at `now`, admitted or not. */
  function Offered(rule: Rule, queue: seq<real>, now: real): seq<real> {
    if HasRoom(rule, queue, now) then Trim(rule, queue, now) + [now] else Trim(rule, queue, now)
  }

  class Window {
    const rule: Rule
    var queue: seq<real>

    constructor (rule: Rule)
      ensures this.rule == rule && queue == []
    {
      this.rule := rule;
      this.queue := [];
    }

    method Offer(now: real) returns (admitted: bool)
      modifies this
      ensures queue == Offered(rule, old(queue), now) && admitted == HasRoom(rule, old(queue), now)
    {
      while queue != [] && Expired(rule, now, queue[0])
        invariant Trim(rule, queue, now) == Trim(rule, old(queue), now)
        decreases |queue|
      {
        queue := queue[1..];
      }
      if |queue| >= rule.limit { return false; }
      queue := queue + [now];
      return true;
    }
  }

  // ---- the shared hourly allowance --------------------------------------------------------------

  function Hourly(limit: int): Rule { Rule(limit, 3600.0, false) }

  /** What one triage request meets before and after it is admitted. */
  datatype Attempt = Attempt(configured: bool, slot: bool, fits: bool, answers: bool)

  datatype Reply = Unavailable | Busy | TooLarge | AllowanceReached | RequestFailed | Answered

  /** The requests that come to the allowance at all. */
  predicate Asks(a: Attempt) { a.configured && a.slot && a.fits }

  class WebsiteCloudBackend {
    const calls: Window
    var active: nat
    var succeeded: nat
    var failed: nat

    constructor (hourlyLimit: int)
      ensures fresh(calls) && calls.rule == Hourly(hourlyLimit) && calls.queue == []
      ensures active == succeeded == failed == 0
    {
      calls := new Window(Hourly(hourlyLimit));
      active, succeeded, failed := 0, 0, 0;
    }

    method Triage(stamp: real, a: Attempt) returns (r: Reply)
      modifies this`active, this`succeeded, this`failed, calls
      ensures calls.queue == if Asks(a) then Offered(calls.rule, old(calls.queue), stamp) else old(calls.queue)
      ensures r in {RequestFailed, Answered} <==> Asks(a) && HasRoom(calls.rule, old(calls.queue), stamp)
      ensures r == AllowanceReached <==> Asks(a) && !HasRoom(calls.rule, old(calls.queue), stamp)
      ensures r in {RequestFailed, Answered} ==> (r == Answered <==> a.answers)
      ensures r == Unavailable <==> !a.configured
      ensures r == Busy <==> a.configured && !a.slot
      ensures r == TooLarge <==> a.configured && a.slot && !a.fits
      ensures succeeded == old(succeeded) + if r == Answered then 1 else 0
      ensures failed == old(failed) + if r in {TooLarge, AllowanceReached, RequestFailed} then 1 else 0
      ensures active == if r in {Unavailable, Busy} then old(active) else 0
    {
      if !a.configured { return Unavailable; }
      if !a.slot { return Busy; }
      if !a.fits {
        r := TooLarge;
      } else {
        var admitted := calls.Offer(stamp);
        if !admitted {
          r := AllowanceReached;
        } else {
          active := 1;
          r := if a.answers then Answered else RequestFailed;
        }
      }
      if r == Answered { succeeded := succeeded + 1; } else { failed := failed + 1; }
      active := 0;
    }
  }

  // ---- visitor sessions ------------------------------------------------------------------------------

  type Token = string

  function PerVisitor(): Rule { Rule(300, 60.0, true) }

  /** A live session: when it was last seen, and its recent requests. */
  datatype Entry = Entry(seen: real, requests: seq<real>)

  datatype Access = Granted(token: Token, created: bool) | Gone | Crowded | Limited

  type Pool = map<Token, Entry>

  predicate Idle(e: Entry, now: real, ttl: real) { now - e.seen > ttl }

  function Live(pool: Pool, now: real, ttl: real): Pool { map t | t in pool && !Idle(pool[t], now, ttl) :: pool[t] }

  /** The session a request is counted against, once expired ones are gone and a new one is opened. */
  function Opened(pool: Pool, capacity: int, token: Token, create: bool, issued: Token, now: real): (Pool, Access) {
    if token in pool then (pool, Granted(token, false))
    else if !create then (pool, Gone)
    else if |pool| >= capacity then (pool, Crowded)
    else (pool[issued := Entry(now, [])], Granted(issued, true))
  }

  function Acquired(pool: Pool, capacity: int, ttl: real, token: Token, create: bool, issued: Token, now: real): (Pool, Access) {
    var (live, access) := Opened(Live(pool, now, ttl), capacity, token, create, issued, now);
    if !access.Granted? || access.token !in live then (live, access)
    else
      var entry := live[access.token];
      if HasRoom(PerVisitor(), entry.requests, now) then
        (live[access.token := Entry(now, Offered(PerVisitor(), entry.requests, now))], access)
      else (live[access.token := entry.(requests := Offered(PerVisitor(), entry.requests, now))], Limited)
  }

  class VisitorPool {
    const capacity: int
    const ttl: real
    var entries: Pool

    constructor (capacity: int, ttl: real)
      ensures this.capacity == capacity && this.ttl == ttl && entries == map[]
    {
      this.capacity, this.ttl, this.entries := capacity, ttl, map[];
    }

    method Expire(now: real)
      modifies this
      ensures entries == Live(old(entries), now, ttl)
      ensures forall t :: t in entries <==> t in old(entries) && now <= old(entries)[t].seen + ttl
      ensures forall t :: t in entries ==> entries[t] == old(entries)[t]
    {
      var expired := set t | t in entries && Idle(entries[t], now, ttl);
      entries := entries - expired;
    }

    /** `issued` is the token a new session would be given. */
    method Acquire(token: Token, create: bool, issued: Token, now: real) returns (access: Access)
      modifies this
      ensures (entries, access) == Acquired(old(entries), capacity, ttl, token, create, issued, now)
    {
      Expire(now);
      var key, made := token, false;
      if token !in entries {
        if !create { return Gone; }
        if |entries| >= capacity { return Crowded; }
        key, made := issued, true;
        entries := entries[key := Entry(now, [])];
      }
      var entry := entries[key];
      var window := new Window(PerVisitor());
      window.queue := entry.requests;
      var admitted := window.Offer(now);
      entry := entry.(requests := window.queue, seen := if admitted then now else entry.seen);
      entries := entries[key := entry];
      return if admitted then Granted(key, made) else Limited;
    }
  }
}
