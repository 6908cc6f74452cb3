/** The cached counts equal the counts over the table, whatever happened before. */
module MemoryRuns {
  import opened Wrappers
  import opened VerdictMemory

  // ---- the cache refines the table ---------------------------------------------------------

  /** While the cache is current its entries are the aggregates, and it never outgrows its limit. */
  ghost predicate Exact(m: State) {
    && m.checked <= m.version && |m.cache| <= Limit()
    && (m.checked == m.version ==> forall s :: s in m.cache ==> m.cache[s] == Aggregate(m.rows, s))
  }

  /** `other` is a table another connection commits while the call is under way. */
  datatype Op =
    | Record(s: string, context: string, d: Decision, other: Option<seq<Row>>)
    | Label(s: string, mark: string)
    | Ask(s: string, other: Option<seq<Row>>)
    | Foreign(rows: seq<Row>)

  function Step(m: State, op: Op): State {
    match op
    case Record(s, context, d, other) => Recorded(m, s, context, d, other)
    case Label(s, mark) => Labelled(m, s, mark)
    case Ask(s, other) => Asked(m, s, other)
    case Foreign(rows) => Elsewhere(m, Some(rows))
  }

  function Run(m: State, ops: seq<Op>): State
    decreases |ops|
  {
    if ops == [] then m else Step(Run(m, ops[..|ops| - 1]), ops[|ops| - 1])
  }

  /** The table alone, for a service that keeps no cache at all. */
  function StepTable(rows: seq<Row>, op: Op): seq<Row> {
    match op
    case Record(s, context, d, other) => RecordedRows(if other.Some? then other.value else rows, s, context, d)
    case Label(s, mark) => LabelledRows(rows, s, mark)
    case Ask(_, other) => if other.Some? then other.value else rows
    case Foreign(r) => r
  }

  function RunTable(rows: seq<Row>, ops: seq<Op>): seq<Row>
    decreases |ops|
  {
    if ops == [] then rows else StepTable(RunTable(rows, ops[..|ops| - 1]), ops[|ops| - 1])
  }

  lemma {:induction false} AggregateSplits(rows: seq<Row>, more: seq<Row>, s: string)
    requires forall i, j :: 0 <= i < j < |more| ==> more[i].signature != more[j].signature
    ensures forall i :: 0 <= i < |more| && more[i].signature == s ==> Aggregate(rows + more, s) == Plus(Aggregate(rows, s), more[i])
    ensures (forall i :: 0 <= i < |more| ==> more[i].signature != s) ==> Aggregate(rows + more, s) == Aggregate(rows, s)
  {
    if more == [] { assert rows + more == rows; }
    else {
      assert (rows + more)[..|rows + more| - 1] == rows + more[..|more| - 1];
      AggregateSplits(rows, more[..|more| - 1], s);
    }
  }

  lemma RecordExact(m: State, s: string, context: string, d: Decision, other: Option<seq<Row>>)
    requires Exact(m)
    ensures Exact(Recorded(m, s, context, d, other))
  {
    var a, signatures := Elsewhere(Refreshed(m), other), Signatures(s, context);
    var next := Recorded(m, s, context, d, other);
    var more := NewRows(signatures, d);
    assert next.cache.Keys == a.cache.Keys;
    assert |next.cache.Keys| == |next.cache| && |a.cache.Keys| == |a.cache|;
    if next.checked == next.version {
      assert a == Refreshed(m);
      forall t | t in next.cache ensures next.cache[t] == Aggregate(next.rows, t) {
        AggregateSplits(a.rows, more, t);
        if t in signatures {
          var i :| 0 <= i < |signatures| && signatures[i] == t;
          assert more[i].signature == t;
        }
      }
    }
  }

  lemma AskExact(m: State, s: string, other: Option<seq<Row>>)
    requires Exact(m)
    ensures var next := Asked(m, s, other);
            Exact(next) && (next.cache[s] == Aggregate(next.rows, s) || next.cache[s] == Aggregate(m.rows, s))
  {
    LoadExact(Elsewhere(Refreshed(m), other), s);
  }

  lemma LoadExact(m: State, s: string)
    requires Exact(m)
    ensures Exact(Loaded(m, s))
  {
    var kept := if |m.cache| >= Limit() then map[] else m.cache;
    var cache := kept[s := Aggregate(m.rows, s)];
    assert cache.Keys == kept.Keys + {s};
    assert |kept.Keys| == |kept| && |cache.Keys| == |cache|;
  }

  lemma {:induction false} RunExact(rows: seq<Row>, version: nat, ops: seq<Op>)
    ensures var m := Run(Opened(rows, version), ops); Exact(m) && m.rows == RunTable(rows, ops)
    decreases |ops|
  {
    if ops != [] {
      var before := Run(Opened(rows, version), ops[..|ops| - 1]);
      RunExact(rows, version, ops[..|ops| - 1]);
      match ops[|ops| - 1]
      case Record(s, context, d, other) => RecordExact(before, s, context, d, other);
      case Label(s, mark) =>
      case Ask(s, other) => AskExact(before, s, other);
      case Foreign(r) =>
    }
  }

  /**
   * After any run of records, labels, questions, evictions and commits by other connections, an
   * answer is the aggregate over the table: the one at the call, or the one another connection
   * committed during it.
   */
  lemma HistoryIsTheAggregate(rows: seq<Row>, version: nat, ops: seq<Op>, s: string, other: Option<seq<Row>>)
    ensures var answer := Asked(Run(Opened(rows, version), ops), s, other).cache[s];
            var table := RunTable(rows, ops);
            && (answer == Aggregate(table, s) || (other.Some? && answer == Aggregate(other.value, s)))
            && |Run(Opened(rows, version), ops).cache| <= 4096
            && answer.total == answer.suppressed + answer.escalated
            && answer.overruled <= answer.suppressed && answer.falseAlarms <= answer.escalated
  {
    RunExact(rows, version, ops);
    AskExact(Run(Opened(rows, version), ops), s, other);
  }

  // ---- what feedback leaves in the table ------------------------------------------------------

  /** Every later commit, by any connection, is a verdict or a label. */
  datatype Commit = NewVerdict(s: string, context: string, d: Decision) | Feedback(s: string, mark: string)

  function CommitTable(rows: seq<Row>, c: Commit): seq<Row> {
    match c
    case NewVerdict(s, context, d) => RecordedRows(rows, s, context, d)
    case Feedback(s, mark) => LabelledRows(rows, s, mark)
  }

  function Commits(rows: seq<Row>, commits: seq<Commit>): seq<Row>
    decreases |commits|
  {
    if commits == [] then rows else CommitTable(Commits(rows, commits[..|commits| - 1]), commits[|commits| - 1])
  }

  /** A suppression of `s` stands reversed by an analyst. */
  predicate Reversed(rows: seq<Row>, s: string) { exists r :: r in rows && r.signature == s && r.decision == Suppress && Overruled(r) }

  predicate Reaches(c: Commit, s: string) { c.Feedback? && Covers(c.s, s) }

  /** Only a label call that covers the signature again can lift the reversal. */
  lemma {:induction false} ReversalStands(rows: seq<Row>, commits: seq<Commit>, s: string)
    requires Reversed(rows, s) && forall i :: 0 <= i < |commits| ==> !Reaches(commits[i], s)
    ensures Reversed(Commits(rows, commits), s)
    decreases |commits|
  {
    if commits != [] {
      var before, c := Commits(rows, commits[..|commits| - 1]), commits[|commits| - 1];
      ReversalStands(rows, commits[..|commits| - 1], s);
      var i :| 0 <= i < |before| && before[i].signature == s && before[i].decision == Suppress && Overruled(before[i]);
      assert CommitTable(before, c)[i] == before[i];
    }
  }

  /** Overruling a signature reverses it exactly when one of its verdicts was a suppression. */
  lemma OverruleReverses(rows: seq<Row>, s: string)
    ensures Reversed(LabelledRows(rows, s, "overruled"), s) <==> exists r :: r in rows && r.signature == s && r.decision == Suppress
  {
    var done := LabelledRows(rows, s, "overruled");
    if r :| r in rows && r.signature == s && r.decision == Suppress {
      var i :| 0 <= i < |rows| && rows[i] == r;
      assert done[i] in done;
    }
    if r :| r in done && r.signature == s && r.decision == Suppress {
      var i :| 0 <= i < |done| && done[i] == r;
      assert rows[i] in rows;
    }
  }

  // ---- what the table says -----------------------------------------------------------------------

  /** A suppression, or any other verdict; all of them, or those that an analyst overruled. */
  predicate Picks(r: Row, suppressed: bool, overruledOnly: bool) {
    (r.decision == Suppress <==> suppressed) && (overruledOnly ==> r.mark == "overruled")
  }

  /** The positions of such verdicts on `s`. */
  function Verdicts(rows: seq<Row>, s: string, suppressed: bool, overruledOnly: bool): set<nat> {
    set i: nat | i < |rows| && rows[i].signature == s && Picks(rows[i], suppressed, overruledOnly)
  }

  function Part(c: Counts, suppressed: bool, overruledOnly: bool): nat {
    if suppressed then (if overruledOnly then c.overruled else c.suppressed) else (if overruledOnly then c.falseAlarms else c.escalated)
  }

  lemma PlusPart(c: Counts, r: Row, suppressed: bool, overruledOnly: bool)
    ensures Part(Plus(c, r), suppressed, overruledOnly) == Part(c, suppressed, overruledOnly) + if Picks(r, suppressed, overruledOnly) then 1 else 0
  {}

  lemma OneMoreVerdict(rows: seq<Row>, r: Row, s: string, suppressed: bool, overruledOnly: bool)
    ensures |Verdicts(rows + [r], s, suppressed, overruledOnly)|
         == |Verdicts(rows, s, suppressed, overruledOnly)| + if r.signature == s && Picks(r, suppressed, overruledOnly) then 1 else 0
  {
    var picked := if r.signature == s && Picks(r, suppressed, overruledOnly) then {|rows|} else {};
    assert Verdicts(rows + [r], s, suppressed, overruledOnly) == Verdicts(rows, s, suppressed, overruledOnly) + picked;
  }

  lemma {:induction false} CountsAre(rows: seq<Row>, s: string, suppressed: bool, overruledOnly: bool)
    ensures |Verdicts(rows, s, suppressed, overruledOnly)| == Part(Aggregate(rows, s), suppressed, overruledOnly)
  {
    if rows != [] {
      var before, r := rows[..|rows| - 1], rows[|rows| - 1];
      CountsAre(before, s, suppressed, overruledOnly);
      PlusPart(Aggregate(before, s), r, suppressed, overruledOnly);
      assert rows == before + [r];
      OneMoreVerdict(before, r, s, suppressed, overruledOnly);
    }
  }

  /** The aggregate counts the verdicts on exactly that signature: suppressions, all others, and of each those
      that were overruled. */
  lemma AggregateCounts(rows: seq<Row>, s: string)
    ensures var c := Aggregate(rows, s);
            && c.suppressed == |Verdicts(rows, s, true, false)| && c.escalated == |Verdicts(rows, s, false, false)|
            && c.overruled == |Verdicts(rows, s, true, true)| && c.falseAlarms == |Verdicts(rows, s, false, true)|
            && c.total == c.suppressed + c.escalated
  {
    CountsAre(rows, s, true, false);
    CountsAre(rows, s, false, false);
    CountsAre(rows, s, true, true);
    CountsAre(rows, s, false, true);
  }

  /** A context of `s`: its text, the mark of a context, and anything more. */
  predicate ContextOf(t: string, s: string) {
    |t| >= |s| + 5 && t[..|s|] == s && t[|s|] == ':' && t[|s| + 1] == 'c' && t[|s| + 2] == 't' && t[|s| + 3] == 'x' && t[|s| + 4] == ':'
  }

  lemma UnderIsContext(s: string, t: string)
    ensures Under(s) <= t <==> ContextOf(t, s)
  {
    if |t| >= |s| + 5 {
      assert t[..|s| + 5] == t[..|s|] + [t[|s|], t[|s| + 1], t[|s| + 2], t[|s| + 3], t[|s| + 4]];
      assert ":ctx:" == [':', 'c', 't', 'x', ':'];
    }
  }

  /** A verdict adds one to the counts of its signature and to those of its own context, and to no others. */
  lemma RecordedCounts(rows: seq<Row>, s: string, context: string, d: Decision, t: string)
    ensures var c, c' := Aggregate(rows, t), Aggregate(RecordedRows(rows, s, context, d), t);
            if t == s || (t == context && ContextOf(context, s)) then
              && c'.total == c.total + 1 && c'.overruled == c.overruled && c'.falseAlarms == c.falseAlarms
              && (d == Suppress ==> c'.suppressed == c.suppressed + 1) && (d != Suppress ==> c'.escalated == c.escalated + 1)
            else c' == c
  {
    UnderIsContext(s, context);
    var more := NewRows(Signatures(s, context), d);
    AggregateSplits(rows, more, t);
    assert t == s ==> more[0].signature == t;
    assert t == context && ContextOf(context, s) ==> more[1].signature == t;
  }

  /** A label marks every verdict of its signature and of the contexts of it, and no others. */
  lemma LabelMarks(rows: seq<Row>, s: string, mark: string, i: nat)
    requires i < |rows|
    ensures var rows' := LabelledRows(rows, s, mark);
            && |rows'| == |rows|
            && rows'[i] == if rows[i].signature == s || ContextOf(rows[i].signature, s) then rows[i].(mark := mark) else rows[i]
  {
    UnderIsContext(s, rows[i].signature);
  }
}
