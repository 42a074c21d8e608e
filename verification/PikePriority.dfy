/** Pike finds the match a backtracker would find first.

    The backtracker tries `x` before `y` at every SPLIT; on code in which no
    cycle can be walked without consuming it needs no memory of where it has
    been.  Pike keeps all its alternatives in step and drops duplicates, and yet
    answers with the same regex id and the same captures. */
module PikePriority {
  import opened Regexes
  import opened Bytecode
  import opened Programs
  import opened Finite
  import opened PikeMachine

  /** Ranks decrease along every move that does not consume. */
  ghost predicate Ranked(code: Code, rank: seq<nat>) {
    && |rank| == |code|
    && forall pc: nat, t: nat ::
         pc < |code| && !code[pc].Consuming() && Target(code[pc], pc, t) && t < |code| ==> rank[t] < rank[pc]
  }

  lemma RankDrops(code: Code, rank: seq<nat>, pc: nat, t: nat)
    requires Ranked(code, rank) && pc < |code| && !code[pc].Consuming() && Target(code[pc], pc, t)
    ensures |rank| == |code| && (t < |code| ==> rank[t] < rank[pc])
  {
  }

  function Left(s: seq<Byte>, p: nat): nat {
    if p < |s| then |s| - p else 0
  }

  /** How far a configuration is from the end of its non-consuming moves. */
  function Measure(rank: seq<nat>, c: Conf): nat {
    if c.pc < |rank| then 1 + rank[c.pc] else 0
  }

  lemma NextDrops(code: Code, rank: seq<nat>, s: seq<Byte>, c: Conf)
    requires Ranked(code, rank) && c.pc < |code|
    ensures forall d :: d in Next(code, s, c) ==>
      Left(s, d.pos) < Left(s, c.pos) || (Left(s, d.pos) == Left(s, c.pos) && Measure(rank, d) < Measure(rank, c))
  {
    forall d | d in Next(code, s, c)
      ensures Left(s, d.pos) < Left(s, c.pos)
              || (Left(s, d.pos) == Left(s, c.pos) && Measure(rank, d) < Measure(rank, c))
    {
      if !code[c.pc].Consuming() { RankDrops(code, rank, c.pc, d.pc); }
    }
  }

  /** The first success of a depth-first search that tries `x` before `y`. */
  ghost function Backtrack(code: Code, rank: seq<nat>, s: seq<Byte>, c: Conf): Option<Hit>
    requires Ranked(code, rank)
    decreases Left(s, c.pos), Measure(rank, c)
  {
    if c.pc >= |code| then None
    else if code[c.pc].Match? then Some(Hit(code[c.pc].id, c.vec))
    else
      NextDrops(code, rank, s, c);
      var next := Next(code, s, c);
      if code[c.pc].Split? then
        assert next[0] in next && next[1] in next;
        OrElse(Backtrack(code, rank, s, next[0]), Backtrack(code, rank, s, next[1]))
      else if next == [] then None
      else Backtrack(code, rank, s, next[0])
  }

  /** What the backtracker finds from the threads of a list, tried in order. */
  ghost function FirstOf(code: Code, rank: seq<nat>, s: seq<Byte>, p: nat, list: seq<Thread>): Option<Hit>
    requires Ranked(code, rank)
  {
    if list == [] then None
    else OrElse(Backtrack(code, rank, s, Conf(list[0].pc, p, list[0].vec)), FirstOf(code, rank, s, p, list[1..]))
  }

  lemma {:induction false} FirstOfAppend(code: Code, rank: seq<nat>, s: seq<Byte>, p: nat, list: seq<Thread>, t: Thread)
    requires Ranked(code, rank)
    ensures FirstOf(code, rank, s, p, list + [t])
            == OrElse(FirstOf(code, rank, s, p, list), Backtrack(code, rank, s, Conf(t.pc, p, t.vec)))
    decreases |list|
  {
    hide Backtrack, Ranked;
    if list == [] {
      assert (list + [t])[1..] == [];
    } else {
      assert (list + [t])[1..] == list[1..] + [t];
      FirstOfAppend(code, rank, s, p, list[1..], t);
    }
  }

  /** Whether there is anything to find does not depend on the captures. */
  lemma {:induction false} VecIrrelevant(code: Code, rank: seq<nat>, s: seq<Byte>, c: Conf, vec: seq<int>)
    requires Ranked(code, rank)
    ensures Backtrack(code, rank, s, c).Some? <==> Backtrack(code, rank, s, c.(vec := vec)).Some?
    decreases Left(s, c.pos), Measure(rank, c)
  {
    if c.pc < |code| && !code[c.pc].Match? {
      NextDrops(code, rank, s, c);
      var next, next' := Next(code, s, c), Next(code, s, c.(vec := vec));
      assert |next| == |next'|;
      if |next| > 0 {
        assert next[0] in next && next'[0] == next[0].(vec := next'[0].vec);
        VecIrrelevant(code, rank, s, next[0], next'[0].vec);
      }
      if |next| > 1 {
        assert next[1] in next && next'[1] == next[1].(vec := next'[1].vec);
        VecIrrelevant(code, rank, s, next[1], next'[1].vec);
      }
    }
  }

  /** Nothing can be found from a visited instruction of rank below `bound`
      unless it is found from the list already. */
  ghost predicate Covered(code: Code, rank: seq<nat>, s: seq<Byte>, p: nat, visited: set<nat>, threads: seq<Thread>,
                          bound: nat)
    requires Ranked(code, rank)
  {
    FirstOf(code, rank, s, p, threads).None? ==>
      forall v :: v in visited && v < |code| && rank[v] < bound ==> Backtrack(code, rank, s, Conf(v, p, [])).None?
  }

  /** Of the newly visited, all but `pc` rank below `pc`. */
  ghost predicate RanksBelow(rank: seq<nat>, visited: set<nat>, visited': set<nat>, pc: nat) {
    forall v :: v in visited' && v !in visited ==> pc < |rank| && (v == pc || (v < |rank| && rank[v] < rank[pc]))
  }

  lemma RanksBelowAgain(rank: seq<nat>, visited: set<nat>, seen: set<nat>, visited': set<nat>, pc: nat, t: nat)
    requires pc < |rank| && (t < |rank| ==> rank[t] < rank[pc])
    requires RanksBelow(rank, visited, seen, pc) && RanksBelow(rank, seen, visited', t)
    ensures RanksBelow(rank, visited, visited', pc)
  {
  }

  lemma RanksBelowItself(rank: seq<nat>, visited: set<nat>, pc: nat)
    requires pc < |rank|
    ensures RanksBelow(rank, visited, visited, pc) && RanksBelow(rank, visited, visited + {pc}, pc)
  {
  }

  lemma {:induction false} NewRanks(code: Code, rank: seq<nat>, at: Place, visited: set<nat>, threads: seq<Thread>,
                                    pc: nat, vec: seq<int>, stop: bool)
    requires Ranked(code, rank) && pc < |code|
    ensures |rank| == |code| && RanksBelow(rank, visited, Add(code, at, visited, threads, pc, vec, stop).visited, pc)
    decreases UpTo(|code|) - visited, if pc in visited then 1 else 0, 0
  {
    var r := Add(code, at, visited, threads, pc, vec, stop);
    assert |rank| == |code|;
    hide Ranked, RanksBelow;
    RanksBelowItself(rank, visited, pc);
    if pc in visited {
      if code[pc].Split? && code[pc].y !in visited {
        NewRanksFrom(code, rank, at, visited, visited, threads, pc, code[pc].y, vec, stop);
      }
    } else {
      var seen := visited + {pc};
      if code[pc].Split? {
        NewRanksFrom(code, rank, at, visited, seen, threads, pc, code[pc].x, vec, stop);
        var l := Add(code, at, seen, threads, code[pc].x, vec, stop);
        if l.hit.None? { NewRanksFrom(code, rank, at, visited, l.visited, l.threads, pc, code[pc].y, vec, stop); }
      } else if !Waits(code[pc]) && Onward(code[pc], at, pc, vec).Some? {
        var t := Onward(code[pc], at, pc, vec).value;
        NewRanksFrom(code, rank, at, visited, seen, threads, pc, t.pc, t.vec, stop);
      }
    }
  }

  /** ... also after going on from `pc` to one of its targets. */
  lemma {:induction false} NewRanksFrom(code: Code, rank: seq<nat>, at: Place, visited: set<nat>, seen: set<nat>,
                                        threads: seq<Thread>,
                                        pc: nat, t: nat, vec: seq<int>, stop: bool)
    requires Ranked(code, rank) && pc < |code| && !code[pc].Consuming() && Target(code[pc], pc, t)
    requires |rank| == |code| && RanksBelow(rank, visited, seen, pc)
    ensures RanksBelow(rank, visited, Add(code, at, seen, threads, t, vec, stop).visited, pc)
    decreases UpTo(|code|) - seen, if t in seen then 1 else 0, 1
  {
    hide Ranked, RanksBelow;
    RankDrops(code, rank, pc, t);
    if t < |code| {
      NewRanks(code, rank, at, seen, threads, t, vec, stop);
      RanksBelowAgain(rank, visited, seen, Add(code, at, seen, threads, t, vec, stop).visited, pc, t);
    }
  }

  /** Once all below `pc` is covered and `pc` itself is worth nothing more than
      the list, everything up to the old bound is covered. */
  lemma CoverUp(code: Code, rank: seq<nat>, s: seq<Byte>, p: nat, visited: set<nat>, threads: seq<Thread>,
                visited': set<nat>, threads': seq<Thread>, pc: nat, vec: seq<int>, bound: nat)
    requires Ranked(code, rank) && pc < |code|
    requires Covered(code, rank, s, p, visited, threads, bound)
    requires Covered(code, rank, s, p, visited', threads', rank[pc])
    requires FirstOf(code, rank, s, p, threads')
             == OrElse(FirstOf(code, rank, s, p, threads), Backtrack(code, rank, s, Conf(pc, p, vec)))
    requires RanksBelow(rank, visited, visited', pc)
    ensures Covered(code, rank, s, p, visited', threads', bound)
  {
    hide Backtrack, FirstOf, Ranked;
    VecIrrelevant(code, rank, s, Conf(pc, p, vec), []);
  }

  lemma BacktrackSplit(code: Code, rank: seq<nat>, s: seq<Byte>, p: nat, pc: nat, vec: seq<int>)
    requires Ranked(code, rank) && pc < |code| && code[pc].Split?
    ensures Backtrack(code, rank, s, Conf(pc, p, vec))
            == OrElse(Backtrack(code, rank, s, Conf(code[pc].x, p, vec)),
                      Backtrack(code, rank, s, Conf(code[pc].y, p, vec)))
  {
  }

  lemma BacktrackOnward(code: Code, rank: seq<nat>, s: seq<Byte>, p: nat, pc: nat, vec: seq<int>)
    requires Ranked(code, rank) && CodeLookAheadFree(code) && p <= |s|
    requires pc < |code| && !code[pc].Split? && !Waits(code[pc])
    ensures var next := Onward(code[pc], PlaceIn(s, p), pc, vec);
            && (next.None? ==> Backtrack(code, rank, s, Conf(pc, p, vec)).None?)
            && (next.Some? ==> Target(code[pc], pc, next.value.pc))
            && (next.Some? ==>
                  Backtrack(code, rank, s, Conf(pc, p, vec)) ==
                      Backtrack(code, rank, s, Conf(next.value.pc, p, next.value.vec)))
  {
  }

  lemma BacktrackMatch(code: Code, rank: seq<nat>, s: seq<Byte>, p: nat, pc: nat, vec: seq<int>)
    requires Ranked(code, rank)
    ensures pc < |code| && code[pc].Match? ==> Backtrack(code, rank, s, Conf(pc, p, vec)) == Some(Hit(code[pc].id, vec))
    ensures pc >= |code| ==> Backtrack(code, rank, s, Conf(pc, p, vec)) == None
  {
  }

  /** What adding `pc` to a list is worth. */
  ghost predicate Worth(code: Code, rank: seq<nat>, s: seq<Byte>, p: nat, threads: seq<Thread>,
                        pc: nat, vec: seq<int>, bound: nat, r: Added)
    requires Ranked(code, rank)
  {
    && OrElse(FirstOf(code, rank, s, p, r.threads), r.hit)
       == OrElse(FirstOf(code, rank, s, p, threads), Backtrack(code, rank, s, Conf(pc, p, vec)))
    && (r.hit.None? ==> Covered(code, rank, s, p, r.visited, r.threads, bound))
  }

  /** The heart: adding `pc` to a list, with everything that gets dropped or cut
      off, is worth exactly what the backtracker finds from `pc`. */
  lemma {:induction false} AddedWorth(code: Code, rank: seq<nat>, s: seq<Byte>, p: nat, visited: set<nat>,
                                      threads: seq<Thread>,
                                      pc: nat, vec: seq<int>, stop: bool, bound: nat)
    requires Ranked(code, rank) && CodeLookAheadFree(code) && p <= |s|
    requires pc < |code| ==> rank[pc] < bound
    requires Covered(code, rank, s, p, visited, threads, bound)
    ensures Worth(code, rank, s, p, threads, pc, vec, bound, Add(code, PlaceIn(s, p), visited, threads, pc, vec, stop))
    decreases UpTo(|code|) - visited, if pc in visited then 1 else 0
  {
    var at := PlaceIn(s, p);
    var r := Add(code, at, visited, threads, pc, vec, stop);
    hide RanksBelow, Backtrack, FirstOf, CodeLookAheadFree, Onward, PlaceIn;
    BacktrackMatch(code, rank, s, p, pc, vec);
    if pc >= |code| {
    } else if pc in visited {
      VecIrrelevant(code, rank, s, Conf(pc, p, vec), []);
      if code[pc].Split? && code[pc].y !in visited {
        BacktrackSplit(code, rank, s, p, pc, vec);
        RankDrops(code, rank, pc, code[pc].y);
        AddedWorth(code, rank, s, p, visited, threads, code[pc].y, vec, stop, bound);
      }
    } else {
      var seen := visited + {pc};
      if code[pc].Split? {
        BacktrackSplit(code, rank, s, p, pc, vec);
        RankDrops(code, rank, pc, code[pc].x);
        RankDrops(code, rank, pc, code[pc].y);
        AddedWorth(code, rank, s, p, seen, threads, code[pc].x, vec, stop, rank[pc]);
        var l := Add(code, at, seen, threads, code[pc].x, vec, stop);
        if l.hit.None? { AddedWorth(code, rank, s, p, l.visited, l.threads, code[pc].y, vec, stop, rank[pc]); }
      } else if Waits(code[pc]) {
        FirstOfAppend(code, rank, s, p, threads, Thread(pc, vec));
      } else {
        BacktrackOnward(code, rank, s, p, pc, vec);
        var next := Onward(code[pc], at, pc, vec);
        if next.Some? {
          RankDrops(code, rank, pc, next.value.pc);
          AddedWorth(code, rank, s, p, seen, threads, next.value.pc, next.value.vec, stop, rank[pc]);
        }
      }
      NewRanks(code, rank, at, visited, threads, pc, vec, stop);
      if r.hit.None? { CoverUp(code, rank, s, p, visited, threads, r.visited, r.threads, pc, vec, bound); }
    }
  }

  lemma BacktrackConsume(code: Code, rank: seq<nat>, s: seq<Byte>, p: nat, pc: nat, vec: seq<int>)
    requires Ranked(code, rank) && CodeLookAheadFree(code) && pc < |code| && Waits(code[pc]) && !code[pc].Match?
    ensures var c := Conf(pc, p, vec);
            Backtrack(code, rank, s, c)
            == if ByteAt(s, p).Some? && code[pc].Accepts(ByteAt(s, p).value)
                then Backtrack(code, rank, s, Conf(pc + 1, p + 1, vec)) else None
  {
  }

  /** Every thread of a list waits. */
  ghost predicate AllWait(code: Code, list: seq<Thread>) {
    forall k :: 0 <= k < |list| ==> list[k].pc < |code| && Waits(code[list[k].pc])
  }

  /** Running a list for one byte is worth what the list was worth, after what is
      on the next list already. */
  lemma {:induction false} RunWorth(code: Code, rank: seq<nat>, s: seq<Byte>, p: nat, list: seq<Thread>,
                                    visited: set<nat>,
                                    next: seq<Thread>, bound: nat)
    requires Ranked(code, rank) && CodeLookAheadFree(code) && p <= |s| && AllWait(code, list)
    requires forall k :: 0 <= k < |rank| ==> rank[k] < bound
    requires p < |s| ==> Covered(code, rank, s, p + 1, visited, next, bound)
    ensures var r := RunThreads(code, ByteAt(s, p), PlaceIn(s, p + 1), list, visited, next);
            OrElse(FirstOf(code, rank, s, p + 1, r.threads), r.hit)
            == OrElse(FirstOf(code, rank, s, p + 1, next), FirstOf(code, rank, s, p, list))
    decreases |list|
  {
    hide Ranked, Backtrack, CodeLookAheadFree, PlaceIn, Waits, Covered, Add;
    if list != [] {
      var t := list[0];
      assert t.pc < |code| && Waits(code[t.pc]);
      BacktrackMatch(code, rank, s, p, t.pc, t.vec);
      if !code[t.pc].Match? {
        BacktrackConsume(code, rank, s, p, t.pc, t.vec);
        var c := ByteAt(s, p);
        if c.Some? && code[t.pc].Accepts(c.value) {
          RankBound(code, rank, t.pc + 1, bound);
          AddedWorth(code, rank, s, p + 1, visited, next, t.pc + 1, t.vec, true, bound);
          var r := Add(code, PlaceIn(s, p + 1), visited, next, t.pc + 1, t.vec, true);
          if r.hit.None? { RunWorth(code, rank, s, p, list[1..], r.visited, r.threads, bound); }
        } else {
          RunWorth(code, rank, s, p, list[1..], visited, next, bound);
        }
      }
    }
  }

  lemma RankBound(code: Code, rank: seq<nat>, pc: nat, bound: nat)
    requires Ranked(code, rank) && forall k :: 0 <= k < |rank| ==> rank[k] < bound
    ensures |rank| == |code| && (pc < |code| ==> rank[pc] < bound)
  {
  }

  lemma {:induction false} Bound(rank: seq<nat>) returns (bound: nat)
    ensures forall k :: 0 <= k < |rank| ==> rank[k] < bound
  {
    if rank == [] {
      bound := 0;
    } else {
      bound := Bound(rank[1..]);
      bound := bound + rank[0] + 1;
      assert forall k :: 1 <= k < |rank| ==> rank[k] == rank[1..][k - 1];
    }
  }

  /** Lists hold waiting threads only. */
  lemma {:induction false} AddWaits(code: Code, at: Place, visited: set<nat>, threads: seq<Thread>, pc: nat,
                                    vec: seq<int>, stop: bool)
    requires AllWait(code, threads)
    ensures AllWait(code, Add(code, at, visited, threads, pc, vec, stop).threads)
    decreases UpTo(|code|) - visited, if pc in visited then 1 else 0
  {
    hide Waits, Onward;
    if pc < |code| && pc in visited {
      if code[pc].Split? && code[pc].y !in visited { AddWaits(code, at, visited, threads, code[pc].y, vec, stop); }
    } else if pc < |code| {
      var seen := visited + {pc};
      if code[pc].Split? {
        AddWaits(code, at, seen, threads, code[pc].x, vec, stop);
        var l := Add(code, at, seen, threads, code[pc].x, vec, stop);
        if l.hit.None? { AddWaits(code, at, l.visited, l.threads, code[pc].y, vec, stop); }
      } else if !Waits(code[pc]) && Onward(code[pc], at, pc, vec).Some? {
        var t := Onward(code[pc], at, pc, vec).value;
        AddWaits(code, at, seen, threads, t.pc, t.vec, stop);
      }
    }
  }

  lemma {:induction false} RunWaits(code: Code, c: Option<Byte>, there: Place, list: seq<Thread>, visited: set<nat>,
                                    next: seq<Thread>)
    requires AllWait(code, next)
    ensures AllWait(code, RunThreads(code, c, there, list, visited, next).threads)
    decreases |list|
  {
    hide AllWait, Add;
    if list != [] {
      var t := list[0];
      if t.pc < |code| && !code[t.pc].Match? && c.Some? && code[t.pc].Accepts(c.value) {
        AddWaits(code, there, visited, next, t.pc + 1, t.vec, true);
        var r := Add(code, there, visited, next, t.pc + 1, t.vec, true);
        if r.hit.None? { RunWaits(code, c, there, list[1..], r.visited, r.threads); }
      } else if t.pc < |code| && code[t.pc].Match? {
      } else {
        RunWaits(code, c, there, list[1..], visited, next);
      }
    }
  }

  /** The search answers what the backtracker finds from its list, and what was
      matched before if that is nothing. */
  lemma {:induction false} SearchBacktracks(code: Code, rank: seq<nat>, s: seq<Byte>, p: nat, list: seq<Thread>,
                                            matched: Option<Hit>)
    requires Ranked(code, rank) && CodeLookAheadFree(code) && p <= |s| && AllWait(code, list)
    ensures Scan(code, s, p, list, matched) == OrElse(FirstOf(code, rank, s, p, list), matched)
    decreases |s| - p
  {
    if list != [] {
      var bound := Bound(rank);
      var r := Step(code, s, p, list);
      RunWaits(code, ByteAt(s, p), PlaceIn(s, p + 1), list, {}, []);
      NothingCovered(code, rank, s, p + 1, bound);
      hide Ranked, Backtrack, CodeLookAheadFree, PlaceIn, AllWait, Covered, Add;
      RunWorth(code, rank, s, p, list, {}, [], bound);
      if p < |s| {
        SearchBacktracks(code, rank, s, p + 1, r.threads, OrElse(r.hit, matched));
      } else {
        NothingRuns(code, PlaceIn(s, p + 1), list);
      }
    }
  }

  lemma NothingCovered(code: Code, rank: seq<nat>, s: seq<Byte>, p: nat, bound: nat)
    requires Ranked(code, rank)
    ensures Covered(code, rank, s, p, {}, [], bound) && AllWait(code, [])
  {
  }

  /** At the end of the stream nothing goes on. */
  lemma {:induction false} NothingRuns(code: Code, there: Place, list: seq<Thread>)
    ensures RunThreads(code, None, there, list, {}, []).threads == []
    decreases |list|
  {
    hide Add;
    if list != [] { NothingRuns(code, there, list[1..]); }
  }

  /** For a whole stream: Pike's answer, id and captures, is the backtracker's. */
  lemma AnswerBacktracks(code: Code, rank: seq<nat>, s: seq<Byte>, n: nat)
    requires Ranked(code, rank) && CodeLookAheadFree(code)
    ensures Answer(code, s, n) == Backtrack(code, rank, s, Conf(0, 0, Blank(n)))
  {
    var bound := Bound(rank);
    hide Backtrack, CodeLookAheadFree, PlaceIn, AllWait, Covered, Scan;
    NothingCovered(code, rank, s, 0, bound);
    RankBound(code, rank, 0, bound);
    AddWaits(code, PlaceIn(s, 0), {}, [], 0, Blank(n), false);
    AddedWorth(code, rank, s, 0, {}, [], 0, Blank(n), false, bound);
    BeginNeverHits(code, PlaceIn(s, 0), {}, [], 0, Blank(n));
    SearchBacktracks(code, rank, s, 0, Begin(code, PlaceIn(s, 0), n).threads, None);
  }

  lemma {:induction false} BeginNeverHits(code: Code, at: Place, visited: set<nat>, threads: seq<Thread>, pc: nat,
                                          vec: seq<int>)
    ensures Add(code, at, visited, threads, pc, vec, false).hit.None?
    decreases UpTo(|code|) - visited, if pc in visited then 1 else 0
  {
    hide Waits, Onward;
    if pc < |code| && pc in visited {
      if code[pc].Split? && code[pc].y !in visited { BeginNeverHits(code, at, visited, threads, code[pc].y, vec); }
    } else if pc < |code| {
      var seen := visited + {pc};
      if code[pc].Split? {
        BeginNeverHits(code, at, seen, threads, code[pc].x, vec);
        var l := Add(code, at, seen, threads, code[pc].x, vec, false);
        BeginNeverHits(code, at, l.visited, l.threads, code[pc].y, vec);
      } else if !Waits(code[pc]) && Onward(code[pc], at, pc, vec).Some? {
        var t := Onward(code[pc], at, pc, vec).value;
        BeginNeverHits(code, at, seen, threads, t.pc, t.vec);
      }
    }
  }
}
