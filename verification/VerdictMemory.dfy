/** The verdict history of each signature: a table, and a cache of its counts kept by hand. */
module VerdictMemory {
  import opened Wrappers

  datatype Decision = Suppress | Escalate | Ambiguous

  /** One recorded verdict; `mark` is the empty string until an analyst gives one. */
  datatype Row = Row(signature: string, decision: Decision, mark: string)

  predicate Overruled(r: Row) { r.mark == "overruled" }

  /** `overruled` counts suppressions an analyst reversed, `falseAlarms` the reversed escalations. */
  datatype Counts = Counts(total: nat, suppressed: nat, escalated: nat, overruled: nat, falseAlarms: nat)

  function Nothing(): Counts { Counts(0, 0, 0, 0, 0) }

  function Plus(c: Counts, r: Row): Counts {
    if r.decision == Suppress then
      c.(total := c.total + 1, suppressed := c.suppressed + 1, overruled := c.overruled + if Overruled(r) then 1 else 0)
    else
      c.(total := c.total + 1, escalated := c.escalated + 1, falseAlarms := c.falseAlarms + if Overruled(r) then 1 else 0)
  }

  /** The counts over the whole table. */
  function Aggregate(rows: seq<Row>, s: string): (c: Counts)
    ensures c.total == c.suppressed + c.escalated
    ensures c.overruled <= c.suppressed && c.falseAlarms <= c.escalated
  {
    if rows == [] then Nothing()
    else
      var n := |rows| - 1;
      var before := Aggregate(rows[..n], s);
      if rows[n].signature == s then Plus(before, rows[n]) else before
  }

  /** What the two counts of reversed verdicts say about the rows. */
  lemma {:induction false} AggregateMeans(rows: seq<Row>, s: string)
    ensures Aggregate(rows, s).overruled > 0 <==> exists r :: r in rows && r.signature == s && r.decision == Suppress && Overruled(r)
    ensures Aggregate(rows, s).falseAlarms == Aggregate(rows, s).escalated <==>
            forall r :: r in rows && r.signature == s && r.decision != Suppress ==> Overruled(r)
  {
    if rows != [] {
      var n := |rows| - 1;
      AggregateMeans(rows[..n], s);
      assert forall r :: r in rows <==> r in rows[..n] || r == rows[n];
    }
  }

  // ---- what each call does to the table ------------------------------------------------

  function Under(s: string): string { s + ":ctx:" }

  /** A verdict is recorded under its signature and under a context signature derived from it. */
  function Signatures(s: string, context: string): (r: seq<string>)
    ensures s in r && forall i, j :: 0 <= i < j < |r| ==> r[i] != r[j]
  {
    if Under(s) <= context then
      assert |s| < |context|;
      [s, context]
    else [s]
  }

  function NewRows(signatures: seq<string>, d: Decision): (r: seq<Row>)
    ensures |r| == |signatures| && forall i :: 0 <= i < |r| ==> r[i] == Row(signatures[i], d, "")
  {
    seq(|signatures|, i requires 0 <= i < |signatures| => Row(signatures[i], d, ""))
  }

  function RecordedRows(rows: seq<Row>, s: string, context: string, d: Decision): seq<Row> {
    rows + NewRows(Signatures(s, context), d)
  }

  /** A label on `s` reaches its own rows and those of every context derived from it. */
  predicate Covers(s: string, t: string) { t == s || Under(s) <= t }

  function LabelledRows(rows: seq<Row>, s: string, mark: string): (r: seq<Row>)
    ensures |r| == |rows|
    ensures forall i :: 0 <= i < |rows| ==> r[i] == if Covers(s, rows[i].signature) then rows[i].(mark := mark) else rows[i]
  {
    seq(|rows|, i requires 0 <= i < |rows| => if Covers(s, rows[i].signature) then rows[i].(mark := mark) else rows[i])
  }

  // ---- the cache ---------------------------------------------------------------------------

  /**
   * `version` counts the commits of other connections; the cache belongs to the version it was
   * last checked against.
   */
  datatype State = State(rows: seq<Row>, version: nat, checked: nat, cache: map<string, Counts>)

  function Limit(): nat { 4096 }

  function Opened(rows: seq<Row>, version: nat): State { State(rows, version, version, map[]) }

  function Refreshed(m: State): State { if m.version != m.checked then m.(cache := map[], checked := m.version) else m }

  /** Another connection may commit at any point; what it leaves in the table is arbitrary. */
  function Elsewhere(m: State, other: Option<seq<Row>>): State {
    if other.Some? then m.(rows := other.value, version := m.version + 1) else m
  }

  function Bumped(c: Counts, d: Decision): Counts { Plus(c, Row("", d, "")) }

  function BumpedCache(cache: map<string, Counts>, signatures: seq<string>, d: Decision): map<string, Counts> {
    map s | s in cache :: if s in signatures then Bumped(cache[s], d) else cache[s]
  }

  function Recorded(m: State, s: string, context: string, d: Decision, other: Option<seq<Row>>): State {
    var a := Elsewhere(Refreshed(m), other);
    a.(rows := RecordedRows(a.rows, s, context, d), cache := BumpedCache(a.cache, Signatures(s, context), d))
  }

  function Asked(m: State, s: string, other: Option<seq<Row>>): (r: State)
    ensures s in r.cache
  {
    var a := Elsewhere(Refreshed(m), other);
    if s in a.cache then a else Loaded(a, s)
  }

  /** A full cache is emptied before the next entry goes in. */
  function Loaded(m: State, s: string): State {
    var kept := if |m.cache| >= Limit() then map[] else m.cache;
    m.(cache := kept[s := Aggregate(m.rows, s)])
  }

  function Labelled(m: State, s: string, mark: string): State { m.(rows := LabelledRows(m.rows, s, mark), cache := map[]) }

  // ---- the service -----------------------------------------------------------------------------

  class SignatureHistory {
    var total: nat
    var suppressed: nat
    var escalated: nat
    var overruled: nat
    var falseAlarms: nat

    constructor (c: Counts)
      ensures Value() == c
    {
      total, suppressed, escalated, overruled, falseAlarms := c.total, c.suppressed, c.escalated, c.overruled, c.falseAlarms;
    }

    function Value(): Counts
      reads this
    {
      Counts(total, suppressed, escalated, overruled, falseAlarms)
    }

    method Add(d: Decision)
      modifies this
      ensures Value() == Bumped(old(Value()), d)
    {
      total := total + 1;
      if d == Suppress { suppressed := suppressed + 1; } else { escalated := escalated + 1; }
    }
  }

  class Memory {
    var rows: seq<Row>
    var version: nat
    var checked: nat
    var cache: map<string, SignatureHistory>
    ghost var shown: map<string, Counts>

    /** The entries hold the counts shown, and no two signatures share one. */
    ghost predicate Valid()
      reads this, cache.Values
    {
      && cache.Keys == shown.Keys
      && (forall s :: s in cache ==> cache[s].Value() == shown[s])
      && forall s, t :: s in cache && t in cache && s != t ==> cache[s] != cache[t]
    }

    ghost function View(): State
      reads this
    {
      State(rows, version, checked, shown)
    }

    constructor (rows: seq<Row>, version: nat)
      ensures Valid() && View() == Opened(rows, version) && cache.Values == {}
    {
      this.rows, this.version, this.checked, this.cache, this.shown := rows, version, version, map[], map[];
    }

    method ClearCache()
      modifies this`cache, this`shown
      ensures Valid() && cache.Values == {} && shown == map[]
    {
      cache, shown := map[], map[];
    }

    method RefreshHistoryCache()
      requires Valid()
      modifies this
      ensures Valid() && View() == Refreshed(old(View())) && cache.Values <= old(cache.Values)
    {
      if version != checked {
        ClearCache();
        checked := version;
      }
    }

    /** A commit by another connection, if there is one here. */
    method Disturb(other: Option<seq<Row>>)
      requires Valid()
      modifies this
      ensures Valid() && View() == Elsewhere(old(View()), other) && cache == old(cache)
    {
      if other.Some? {
        rows := other.value;
        version := version + 1;
      }
    }

    method RecordVerdict(s: string, context: string, d: Decision, other: Option<seq<Row>>)
      requires Valid()
      modifies this, cache.Values
      ensures Valid() && View() == Recorded(old(View()), s, context, d, other) && cache.Values <= old(cache.Values)
    {
      RefreshHistoryCache();
      Disturb(other);
      var signatures := Signatures(s, context);
      rows := rows + NewRows(signatures, d);
      AddToCache(signatures, d);
    }

    method AddToCache(signatures: seq<string>, d: Decision)
      requires Valid() && forall i, j :: 0 <= i < j < |signatures| ==> signatures[i] != signatures[j]
      modifies this`shown, cache.Values
      ensures Valid() && shown == BumpedCache(old(shown), signatures, d)
    {
      ghost var was := shown;
      assert shown == BumpedCache(was, [], d);
      for i := 0 to |signatures|
        invariant Valid() && shown == BumpedCache(was, signatures[..i], d)
      {
        if signatures[i] in cache {
          var cached := cache[signatures[i]];
          cached.Add(d);
          shown := shown[signatures[i] := Bumped(shown[signatures[i]], d)];
        }
        Bump(was, signatures, i, d);
      }
      assert signatures[..|signatures|] == signatures;
    }

    method Load(s: string)
      requires Valid() && s !in cache
      modifies this`cache, this`shown
      ensures Valid() && View() == Loaded(old(View()), s)
      ensures fresh(cache.Values - old(cache.Values))
    {
      assert |cache.Keys| == |shown.Keys|;
      if |cache| >= 4096 { ClearCache(); }
      var entry := new SignatureHistory(Aggregate(rows, s));
      cache, shown := cache[s := entry], shown[s := Aggregate(rows, s)];
    }

    /** The answer is a copy: no entry of the cache is the object returned. */
    method History(s: string, other: Option<seq<Row>>) returns (h: SignatureHistory)
      requires Valid()
      modifies this
      ensures Valid() && View() == Asked(old(View()), s, other)
      ensures fresh(h) && h !in cache.Values && h.Value() == View().cache[s]
      ensures fresh(cache.Values - old(cache.Values))
    {
      RefreshHistoryCache();
      Disturb(other);
      if s !in cache { Load(s); }
      h := new SignatureHistory(cache[s].Value());
    }

    method LabelVerdicts(s: string, mark: string)
      requires Valid()
      modifies this
      ensures Valid() && View() == Labelled(old(View()), s, mark) && cache.Values == {}
    {
      rows := LabelledRows(rows, s, mark);
      ClearCache();
    }
  }

  /** Adding to one more entry. */
  lemma Bump(was: map<string, Counts>, signatures: seq<string>, i: nat, d: Decision)
    requires i < |signatures| && forall j, k :: 0 <= j < k < |signatures| ==> signatures[j] != signatures[k]
    ensures var before, next := BumpedCache(was, signatures[..i], d), BumpedCache(was, signatures[..i + 1], d);
            next == if signatures[i] in was then before[signatures[i] := Bumped(before[signatures[i]], d)] else before
  {
    assert signatures[..i + 1] == signatures[..i] + [signatures[i]];
    assert signatures[i] !in signatures[..i];
  }
}
