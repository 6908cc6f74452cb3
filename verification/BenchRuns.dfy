/** The simulation is exact, and reusing verdicts never makes a queue worse. */
module BenchRuns {
  import opened Wrappers
  import opened Bench

  // ---- when a job finishes -----------------------------------------------------------------

  /** Job `i` cannot finish before job `j` has arrived and the work from `j` to `i` is done. */
  lemma {:induction false} FinishIsBounded(arrivals: seq<real>, services: seq<real>, j: nat, i: nat)
    requires j <= i < Served(arrivals, services)
    ensures FreeAt(arrivals, services, i + 1) >= arrivals[j] + Work(services, j, i + 1)
    ensures FreeAt(arrivals, services, i + 1) >= Work(services, 0, i + 1)
    decreases i
  {
    if j < i { FinishIsBounded(arrivals, services, j, i - 1); }
    else if i > 0 { FinishIsBounded(arrivals, services, i - 1, i - 1); }
  }

  /** The job that opened the busy period in which `i` is served; none when the server was busy from time 0. */
  function Opener(arrivals: seq<real>, services: seq<real>, i: nat): (r: Option<nat>)
    requires i < Served(arrivals, services)
    ensures r.Some? ==> r.value <= i && FreeAt(arrivals, services, i + 1) == arrivals[r.value] + Work(services, r.value, i + 1)
    ensures r.None? ==> FreeAt(arrivals, services, i + 1) == Work(services, 0, i + 1)
  {
    if arrivals[i] >= FreeAt(arrivals, services, i) then assert Work(services, i, i) == 0.0; Some(i)
    else if i == 0 then None
    else Opener(arrivals, services, i - 1)
  }

  predicate Attained(arrivals: seq<real>, services: seq<real>, i: nat)
    requires i < Served(arrivals, services)
  {
    exists j :: 0 <= j <= i && FreeAt(arrivals, services, i + 1) == arrivals[j] + Work(services, j, i + 1)
  }

  predicate Reaches(arrivals: seq<real>, services: seq<real>, j: nat, i: nat)
    requires j <= i < Served(arrivals, services)
  {
    FreeAt(arrivals, services, i + 1) >= arrivals[j] + Work(services, j, i + 1)
  }

  /**
   * Each finish time is the largest, over the jobs up to it, of an arrival plus the work from that
   * job on, for every job exactly when the first does not arrive before time 0.
   */
  lemma FinishIsMaxPlus(arrivals: seq<real>, services: seq<real>)
    requires Served(arrivals, services) > 0
    ensures forall i, j :: 0 <= j <= i < Served(arrivals, services) ==> Reaches(arrivals, services, j, i)
    ensures (forall i :: 0 <= i < Served(arrivals, services) ==> Attained(arrivals, services, i)) <==> arrivals[0] >= 0.0
  {
    forall i, j | 0 <= j <= i < Served(arrivals, services) ensures Reaches(arrivals, services, j, i) {
      FinishIsBounded(arrivals, services, j, i);
    }
    if arrivals[0] >= 0.0 {
      forall i | 0 <= i < Served(arrivals, services) ensures Attained(arrivals, services, i) {
        FinishIsBounded(arrivals, services, 0, i);
        if Opener(arrivals, services, i).None? { assert FreeAt(arrivals, services, i + 1) == arrivals[0] + Work(services, 0, i + 1); }
      }
    } else {
      assert FreeAt(arrivals, services, 1) == Work(services, 0, 1);
      assert !Attained(arrivals, services, 0);
    }
  }

  /** The depth reported is the backlog of one arrival, and none finds more. */
  lemma {:induction false} DepthIsTheWorst(arrivals: seq<real>, finishes: seq<real>, k: nat)
    requires k <= |arrivals|
    ensures forall i :: 0 <= i < k ==> Backlog(finishes, i, arrivals[i]) <= MaxBacklog(arrivals, finishes, k)
    ensures k > 0 ==> exists i :: 0 <= i < k && Backlog(finishes, i, arrivals[i]) == MaxBacklog(arrivals, finishes, k)
  {
    if k > 0 {
      DepthIsTheWorst(arrivals, finishes, k - 1);
      assert Backlog(finishes, k - 1, arrivals[k - 1]) <= MaxBacklog(arrivals, finishes, k);
      if MaxBacklog(arrivals, finishes, k) == MaxBacklog(arrivals, finishes, k - 1) && k > 1 {
        var i :| 0 <= i < k - 1 && Backlog(finishes, i, arrivals[i]) == MaxBacklog(arrivals, finishes, k - 1);
        assert Backlog(finishes, i, arrivals[i]) == MaxBacklog(arrivals, finishes, k);
      }
    }
  }

  // ---- reuse within a window ------------------------------------------------------------------

  predicate IsLastCharged(rows: seq<Row>, window: Option<real>, k: nat, s: string, j: nat)
    requires j < k <= |rows|
  {
    && rows[j].signature == s && Charged(rows, window, j)
    && forall i :: j < i < k && rows[i].signature == s ==> !Charged(rows, window, i)
  }

  lemma {:induction false} LastChargedIsLast(rows: seq<Row>, window: Option<real>, k: nat, s: string)
    requires k <= |rows|
    ensures match LastCharged(rows, window, k, s)
            case None => forall i :: 0 <= i < k && rows[i].signature == s ==> !Charged(rows, window, i)
            case Some(at) => (exists j :: 0 <= j < k && IsLastCharged(rows, window, k, s, j) && rows[j].arrival == at)
  {
    if k > 0 {
      if rows[k - 1].signature == s && Charged(rows, window, k - 1) { assert IsLastCharged(rows, window, k, s, k - 1); }
      else {
        var before := k - 1;
        LastChargedIsLast(rows, window, before, s);
        if j :| 0 <= j < before && IsLastCharged(rows, window, before, s, j) { assert IsLastCharged(rows, window, k, s, j); }
      }
    }
  }

  predicate InOrder(rows: seq<Row>) { forall i, j :: 0 <= i < j < |rows| ==> rows[i].arrival <= rows[j].arrival }

  /** Two charged calls of one signature are more than a window apart. */
  lemma ChargesAreSpaced(rows: seq<Row>, window: real, i: nat, j: nat)
    requires i < j < |rows| && InOrder(rows) && rows[i].signature == rows[j].signature
    requires Charged(rows, Some(window), i) && Charged(rows, Some(window), j)
    ensures rows[j].arrival - rows[i].arrival > window
  {
    LastChargedIsLast(rows, Some(window), j, rows[j].signature);
  }

  /** A model-tier row that pays nothing has a paid one of its signature within the window before it. */
  lemma ReuseIsCovered(rows: seq<Row>, window: real, i: nat)
    requires i < |rows| && InOrder(rows) && rows[i].llm
    ensures !Charged(rows, Some(window), i) <==>
            (exists j :: 0 <= j < i && rows[j].signature == rows[i].signature && Charged(rows, Some(window), j)
                           && rows[i].arrival - rows[j].arrival <= window)
  {
    LastChargedIsLast(rows, Some(window), i, rows[i].signature);
    if j :| 0 <= j < i && rows[j].signature == rows[i].signature && Charged(rows, Some(window), j) && rows[i].arrival - rows[j].arrival <= window {
      if Charged(rows, Some(window), i) { ChargesAreSpaced(rows, window, j, i); }
    }
  }

  // ---- dominance --------------------------------------------------------------------------------

  predicate Dominates(more: seq<real>, less: seq<real>) { |more| == |less| && forall i :: 0 <= i < |more| ==> less[i] <= more[i] }

  lemma {:induction false} EarlierFree(arrivals: seq<real>, more: seq<real>, less: seq<real>, k: nat)
    requires k <= |arrivals| == |more| && Dominates(more, less)
    ensures FreeAt(arrivals, less, k) <= FreeAt(arrivals, more, k)
  {
    if k > 0 { EarlierFree(arrivals, more, less, k - 1); }
  }

  lemma {:induction false} SmallerBacklog(more: seq<real>, less: seq<real>, k: nat, t: real)
    requires Dominates(more, less)
    ensures Backlog(less, k, t) <= Backlog(more, k, t)
  {
    if k > 0 { SmallerBacklog(more, less, k - 1, t); }
  }

  lemma {:induction false} SmallerDepth(arrivals: seq<real>, more: seq<real>, less: seq<real>, k: nat)
    requires k <= |arrivals| == |more| && Dominates(more, less)
    ensures MaxBacklog(arrivals, less, k) <= MaxBacklog(arrivals, more, k)
  {
    if k > 0 {
      SmallerDepth(arrivals, more, less, k - 1);
      SmallerBacklog(more, less, k - 1, arrivals[k - 1]);
    }
  }

  function Arrivals(rows: seq<Row>): (r: seq<real>)
    ensures |r| == |rows| && forall i :: 0 <= i < |rows| ==> r[i] == rows[i].arrival
  {
    seq(|rows|, i requires 0 <= i < |rows| => rows[i].arrival)
  }

  /** With reuse no service, no time in system, no backlog and no drain time is larger. */
  lemma DedupDominates(rows: seq<Row>, latency: real, window: real)
    requires latency >= 0.0
    ensures var arrivals, plain, dedup := Arrivals(rows), ServicesOf(rows, latency, None), ServicesOf(rows, latency, Some(window));
            && Dominates(plain, dedup)
            && (forall i :: 0 <= i < |rows| ==> FreeAt(arrivals, dedup, i + 1) - arrivals[i] <= FreeAt(arrivals, plain, i + 1) - arrivals[i])
            && MaxBacklog(arrivals, Finishes(arrivals, dedup), |rows|) <= MaxBacklog(arrivals, Finishes(arrivals, plain), |rows|)
            && FreeAt(arrivals, dedup, |rows|) <= FreeAt(arrivals, plain, |rows|)
  {
    var arrivals, plain, dedup := Arrivals(rows), ServicesOf(rows, latency, None), ServicesOf(rows, latency, Some(window));
    assert Dominates(plain, dedup);
    forall k | 0 <= k <= |rows| ensures FreeAt(arrivals, dedup, k) <= FreeAt(arrivals, plain, k) { EarlierFree(arrivals, plain, dedup, k); }
    SmallerDepth(arrivals, Finishes(arrivals, plain), Finishes(arrivals, dedup), |rows|);
  }

  // ---- who pays --------------------------------------------------------------------------------------

  predicate Pays(rows: seq<Row>, latency: real, window: Option<real>, i: nat)
    requires i < |rows|
  {
    ServicesOf(rows, latency, window)[i] == rows[i].pipeline + latency
  }

  /** A row pays for the model exactly when it is of the model tier and, with reuse, none of its signature within the
      window before it has paid; else it takes its own time only. */
  lemma WhoPays(rows: seq<Row>, latency: real, window: Option<real>, i: nat)
    requires i < |rows| && InOrder(rows) && latency > 0.0
    ensures Pays(rows, latency, window, i) <==>
              && rows[i].llm
              && (window.Some? ==> forall j :: 0 <= j < i && rows[j].signature == rows[i].signature && Pays(rows, latency, window, j) ==>
                    rows[i].arrival > rows[j].arrival + window.value)
    ensures !Pays(rows, latency, window, i) ==> ServicesOf(rows, latency, window)[i] == rows[i].pipeline
  {
    forall j: nat | j < |rows| ensures Pays(rows, latency, window, j) <==> Charged(rows, window, j) {}
    if window.Some? && rows[i].llm { ReuseIsCovered(rows, window.value, i); }
  }

  /** So the first of each signature in the model tier pays, and without reuse each of them. */
  lemma FirstPays(rows: seq<Row>, latency: real, window: Option<real>, i: nat)
    requires i < |rows| && InOrder(rows) && latency > 0.0 && rows[i].llm
    requires window.None? || forall j :: 0 <= j < i && rows[j].signature == rows[i].signature ==> !rows[j].llm
    ensures Pays(rows, latency, window, i)
  {
    if window.Some? && !Charged(rows, window, i) { ReuseIsCovered(rows, window.value, i); }
  }

  /** The positions of the first `k` jobs that have not left by time `t`. */
  function Present(finishes: seq<real>, k: nat, t: real): set<nat> {
    set i: nat | i < k && (i < |finishes| ==> t < finishes[i])
  }

  /** The backlog that an arrival finds counts the earlier jobs that have not left. */
  lemma {:induction false} BacklogCounts(finishes: seq<real>, k: nat, t: real)
    ensures Backlog(finishes, k, t) == |Present(finishes, k, t)|
  {
    if k > 0 {
      BacklogCounts(finishes, k - 1, t);
      var stays := k - 1 < |finishes| ==> t < finishes[k - 1];
      assert Present(finishes, k, t) == Present(finishes, k - 1, t) + if stays then {k - 1} else {};
    }
  }
}
