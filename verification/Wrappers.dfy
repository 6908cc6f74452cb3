/** Outcome datatypes, and the vocabulary of durable state shared by the other modules. */
module Wrappers {

  datatype Option<+T> = None | Some(value: T)

  /** A call that returns normally, or raises; `message` names the error in short. */
  datatype Result<+T> = Ok(value: T) | Err(message: string)

  /** The state reached after the commits in `trace`, which start from `start`. */
  function After<S>(start: S, trace: seq<S>): S {
    if trace == [] then start else trace[|trace| - 1]
  }

  /** What a process that stops after `cut` of the commits in `trace` leaves on disk. */
  function Cut<S>(start: S, trace: seq<S>, cut: nat): S {
    if cut == 0 then start else if cut < |trace| then trace[cut - 1] else After(start, trace)
  }

  /** What one turn of a loop commits, given the state it finds. */
  type Turns<!S> = (nat, S) -> seq<S>

  /** The commits of the first `k` turns. */
  function UpTo<S>(start: S, turns: Turns<S>, k: nat): seq<S> {
    if k == 0 then [] else var before := UpTo(start, turns, k - 1); before + turns(k - 1, After(start, before))
  }

  ghost predicate AllHold<S>(trace: seq<S>, inv: S -> bool) { forall j :: 0 <= j < |trace| ==> inv(trace[j]) }

  /** What every commit of every turn keeps, the whole loop keeps. */
  lemma {:induction false} TurnsKeep<S(!new)>(start: S, turns: Turns<S>, n: nat, inv: S -> bool)
    requires inv(start)
    requires forall i: nat, s: S :: i < n && inv(s) ==> AllHold(turns(i, s), inv)
    ensures AllHold(UpTo(start, turns, n), inv) && inv(After(start, UpTo(start, turns, n)))
  {
    if n > 0 {
      TurnsKeep(start, turns, n - 1, inv);
      var before := UpTo(start, turns, n - 1);
      assert AllHold(turns(n - 1, After(start, before)), inv);
    }
  }

  /** A measure of progress that each turn moves on is where the whole loop arrives. */
  lemma {:induction false} TurnsReach<S(!new)>(start: S, turns: Turns<S>, n: nat, at: (nat, S) -> bool)
    requires at(0, start)
    requires forall i: nat, s: S :: i < n && at(i, s) ==> at(i + 1, After(s, turns(i, s)))
    ensures at(n, After(start, UpTo(start, turns, n)))
  {
    if n > 0 {
      TurnsReach(start, turns, n - 1, at);
      var before := UpTo(start, turns, n - 1);
      assert After(start, before + turns(n - 1, After(start, before))) == After(After(start, before), turns(n - 1, After(start, before)));
    }
  }

  /** A database whose commits are atomic. `trail` is its journal: every state a crash could leave behind. */
  class Database<S> {
    var state: S
    var trail: seq<S>

    constructor (state: S)
      ensures this.state == state && trail == []
    {
      this.state := state;
      trail := [];
    }

    /** The database has committed `trace` since the state `start`, when its trail was `trail`. */
    ghost predicate Reached(start: S, trail: seq<S>, trace: seq<S>)
      reads this
    {
      this.trail == trail + trace && this.state == After(start, trace)
    }

    /** Two stretches of commits in a row are one. */
    lemma Chain(start: S, trail: seq<S>, first: seq<S>, second: seq<S>)
      requires Reached(After(start, first), trail + first, second)
      ensures Reached(start, trail, first + second)
    {
      assert trail + first + second == trail + (first + second);
    }

    /** One more turn of a loop. */
    lemma Turn(start: S, trail: seq<S>, turns: Turns<S>, k: nat)
      requires var before := UpTo(start, turns, k);
               Reached(After(start, before), trail + before, turns(k, After(start, before)))
      ensures Reached(start, trail, UpTo(start, turns, k + 1))
    {
      var before := UpTo(start, turns, k);
      Chain(start, trail, before, turns(k, After(start, before)));
    }

    method Commit(next: S)
      modifies this
      ensures state == next && trail == old(trail) + [next]
    {
      state := next;
      trail := trail + [next];
    }
  }
}
