/** The flood bench: a single-server queue simulation, and service times with verdict reuse. */
module Bench {
  import opened Wrappers

  function Max(a: real, b: real): real { if a >= b then a else b }

  // ---- the queue -------------------------------------------------------------------------

  predicate Sorted(arrivals: seq<real>) { forall i, j :: 0 <= i < j < |arrivals| ==> arrivals[i] <= arrivals[j] }

  predicate NonNegative(services: seq<real>) { forall i :: 0 <= i < |services| ==> services[i] >= 0.0 }

  /** When the server has finished the first `k` jobs; it is free from time 0. */
  function FreeAt(arrivals: seq<real>, services: seq<real>, k: nat): real
    requires k <= |arrivals| && k <= |services|
  {
    if k == 0 then 0.0 else Max(arrivals[k - 1], FreeAt(arrivals, services, k - 1)) + services[k - 1]
  }

  /** The work of jobs `lo` up to, but not including, `hi`. */
  function Work(services: seq<real>, lo: nat, hi: nat): real
    requires lo <= hi <= |services|
    decreases hi
  {
    if lo == hi then 0.0 else Work(services, lo, hi - 1) + services[hi - 1]
  }

  /** Jobs among the first `k` that are still in the system after time `t`; one never served stays in it. */
  function Backlog(finishes: seq<real>, k: nat, t: real): nat {
    if k == 0 then 0 else Backlog(finishes, k - 1, t) + if k <= |finishes| && finishes[k - 1] <= t then 0 else 1
  }

  /** The largest backlog any of the first `k` arrivals finds. */
  function MaxBacklog(arrivals: seq<real>, finishes: seq<real>, k: nat): nat
    requires k <= |arrivals|
  {
    if k == 0 then 0
    else
      var before, now := MaxBacklog(arrivals, finishes, k - 1), Backlog(finishes, k - 1, arrivals[k - 1]);
      if now > before then now else before
  }

  /** Jobs are paired with services as far as both go. */
  function Served(arrivals: seq<real>, services: seq<real>): nat {
    if |arrivals| <= |services| then |arrivals| else |services|
  }

  function Finishes(arrivals: seq<real>, services: seq<real>): (r: seq<real>)
    ensures |r| == Served(arrivals, services) && forall i :: 0 <= i < |r| ==> r[i] == FreeAt(arrivals, services, i + 1)
  {
    seq(Served(arrivals, services), i requires 0 <= i < Served(arrivals, services) => FreeAt(arrivals, services, i + 1))
  }

  /** Everything behind the pointer has left, everything from it on is still there. */
  lemma {:induction false} BacklogFromPointer(finishes: seq<real>, j: nat, k: nat, t: real)
    requires j <= k && j <= |finishes|
    requires forall i :: 0 <= i < j ==> finishes[i] <= t
    requires forall i :: j <= i < k && i < |finishes| ==> finishes[i] > t
    ensures Backlog(finishes, k, t) == k - j
  {
    if j < k { BacklogFromPointer(finishes, j, k - 1, t); }
    else if k > 0 { BacklogFromPointer(finishes, j - 1, k - 1, t); }
  }

  lemma {:induction false} FinishesRise(arrivals: seq<real>, services: seq<real>, i: nat, k: nat)
    requires i <= k <= Served(arrivals, services) && NonNegative(services)
    ensures FreeAt(arrivals, services, i) <= FreeAt(arrivals, services, k)
  {
    if i < k { FinishesRise(arrivals, services, i, k - 1); }
  }

  /** An arrival beyond the served jobs finds all of those gone: the pointer would run past their end. */
  predicate Overruns(arrivals: seq<real>, finishes: seq<real>, i: nat)
    requires i < |arrivals|
  {
    i > |finishes| && (finishes == [] || finishes[|finishes| - 1] <= arrivals[i])
  }

  predicate AnyOverrun(arrivals: seq<real>, finishes: seq<real>, k: nat)
    requires k <= |arrivals|
  {
    exists i :: 0 <= i < k && Overruns(arrivals, finishes, i)
  }

  /** The largest backlog, by one pass with a pointer that only moves forward; None when it leaves the list. */
  method Deepest(arrivals: seq<real>, finishes: seq<real>) returns (depth: Option<nat>)
    ensures |arrivals| <= |finishes| ==> depth.Some?
    ensures Sorted(arrivals) && Sorted(finishes) ==>
              depth == if AnyOverrun(arrivals, finishes, |arrivals|) then None else Some(MaxBacklog(arrivals, finishes, |arrivals|))
  {
    var most: nat, j := 0, 0;
    for i := 0 to |arrivals|
      invariant 0 <= j <= i && j <= |finishes|
      invariant Sorted(arrivals) && i > 0 ==> forall k :: 0 <= k < j ==> finishes[k] <= arrivals[i - 1]
      invariant Sorted(arrivals) && Sorted(finishes) ==>
                  !AnyOverrun(arrivals, finishes, i) && most == MaxBacklog(arrivals, finishes, i)
    {
      while j < i && j < |finishes| && finishes[j] <= arrivals[i]
        invariant 0 <= j <= i && j <= |finishes|
        invariant Sorted(arrivals) ==> forall k :: 0 <= k < j ==> finishes[k] <= arrivals[i]
      {
        j := j + 1;
      }
      if j < i && j == |finishes| {
        assert Sorted(arrivals) ==> Overruns(arrivals, finishes, i);
        return None;
      }
      if Sorted(arrivals) && Sorted(finishes) { BacklogFromPointer(finishes, j, i, arrivals[i]); }
      most := if i - j > most then i - j else most;
    }
    return Some(most);
  }

  /** Time in system of each job, the largest backlog, and when the server is done. */
  datatype Report = Report(inSystem: seq<real>, depth: nat, drain: real)

  /**
   * The moving pointer counts right when arrivals are in order and no service takes negative time.
   * Lists of different lengths are paired as far as both go, and the simulation raises only if an
   * arrival without a service finds every served job gone.
   */
  method SimulateQueue(arrivals: seq<real>, services: seq<real>) returns (r: Result<Report>)
    ensures |arrivals| <= |services| ==> r.Ok?
    ensures Sorted(arrivals) && NonNegative(services) ==>
              (r.Err? <==> AnyOverrun(arrivals, Finishes(arrivals, services), |arrivals|))
    ensures r.Ok? ==>
              && |r.value.inSystem| == Served(arrivals, services)
              && (forall i :: 0 <= i < |r.value.inSystem| ==> r.value.inSystem[i] == FreeAt(arrivals, services, i + 1) - arrivals[i])
              && r.value.drain == FreeAt(arrivals, services, Served(arrivals, services))
    ensures r.Ok? && Sorted(arrivals) && NonNegative(services) ==>
              r.value.depth == MaxBacklog(arrivals, Finishes(arrivals, services), |arrivals|)
  {
    var n, finish, finishes := Served(arrivals, services), 0.0, [];
    for i := 0 to n
      invariant finish == FreeAt(arrivals, services, i)
      invariant |finishes| == i && forall k :: 0 <= k < i ==> finishes[k] == FreeAt(arrivals, services, k + 1)
    {
      finish := Max(arrivals[i], finish) + services[i];
      finishes := finishes + [finish];
    }
    assert finishes == Finishes(arrivals, services);
    var inSystem := seq(n, i requires 0 <= i < n => finishes[i] - arrivals[i]);
    if NonNegative(services) {
      forall i, k | 0 <= i < k < |finishes| ensures finishes[i] <= finishes[k] { FinishesRise(arrivals, services, i + 1, k + 1); }
    }
    var depth := Deepest(arrivals, finishes);
    if depth.None? { return Err("list index out of range"); }
    return Ok(Report(inSystem, depth.value, if finishes != [] then finishes[|finishes| - 1] else 0.0));
  }

  // ---- service times ---------------------------------------------------------------------

  datatype Row = Row(arrival: real, signature: string, llm: bool, pipeline: real)

  /** The arrival of the last of the first `k` rows of a signature that paid for a model call. */
  function LastCharged(rows: seq<Row>, window: Option<real>, k: nat, signature: string): Option<real>
    requires k <= |rows|
    decreases k, 0
  {
    if k == 0 then None
    else if rows[k - 1].signature == signature && Charged(rows, window, k - 1) then Some(rows[k - 1].arrival)
    else LastCharged(rows, window, k - 1, signature)
  }

  /** Whether row `i` pays for a model call or reuses a verdict from within the window. */
  predicate Charged(rows: seq<Row>, window: Option<real>, i: nat)
    requires i < |rows|
    decreases i, 1
  {
    rows[i].llm &&
      var last := LastCharged(rows, window, i, rows[i].signature);
      window.None? || last.None? || rows[i].arrival - last.value > window.value
  }

  function ServicesOf(rows: seq<Row>, latency: real, window: Option<real>): (r: seq<real>)
    ensures |r| == |rows|
    ensures forall i :: 0 <= i < |rows| ==> r[i] == rows[i].pipeline + if Charged(rows, window, i) then latency else 0.0
  {
    seq(|rows|, i requires 0 <= i < |rows| => rows[i].pipeline + if Charged(rows, window, i) then latency else 0.0)
  }

  method Services(rows: seq<Row>, latency: real, window: Option<real>) returns (out: seq<real>)
    ensures out == ServicesOf(rows, latency, window)
  {
    var seen: map<string, real> := map[];
    out := [];
    for i := 0 to |rows|
      invariant |out| == i && forall k :: 0 <= k < i ==> out[k] == ServicesOf(rows, latency, window)[k]
      invariant forall s :: (if s in seen then Some(seen[s]) else None) == LastCharged(rows, window, i, s)
    {
      var r := rows[i];
      var service := r.pipeline;
      if r.llm {
        if window.None? || r.signature !in seen || r.arrival - seen[r.signature] > window.value {
          service := service + latency;
          seen := seen[r.signature := r.arrival];
        }
      }
      out := out + [service];
    }
  }
}
