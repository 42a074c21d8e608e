/** What Pike answers for every program, empty loops such as (a*)* included: it
    finds a match exactly when there is one, what it reports is a match of the
    regex it names, and no match of any regex of the set starts earlier. */
module PikeLeftmost {
  import opened Regexes
  import opened Bytecode
  import opened Compiler
  import opened Fragments
  import opened Programs
  import opened Finite
  import opened Thompson
  import opened ThompsonMatching
  import opened PikeMachine
  import opened PikePriority

  /** A run that left the search loop at position `i` is at `t` at position `p`. */
  ghost predicate Begun(code: Code, s: seq<Byte>, n: nat, i: nat, p: nat, t: Thread) {
    exists k: nat :: Run(code, s, 3, |code|, Conf(3, i, Blank(n)), Conf(t.pc, p, t.vec), k)
  }

  /** The same without captures. */
  ghost predicate From(code: Code, s: seq<Byte>, i: nat, p: nat, pc: nat) {
    exists k: nat :: Run(code, s, 3, |code|, Conf(3, i, []), Conf(pc, p, []), k)
  }

  lemma BegunMoves(code: Code, s: seq<Byte>, n: nat, i: nat, p: nat, t: Thread, q: nat, t': Thread)
    requires Searching(code) && t.pc >= 3 && t.pc < |code| && Begun(code, s, n, i, p, t)
    requires Moves(code, s, Conf(t.pc, p, t.vec), Conf(t'.pc, q, t'.vec))
    ensures Begun(code, s, n, i, q, t') && t'.pc >= 3
  {
    var c, d, e := Conf(3, i, Blank(n)), Conf(t.pc, p, t.vec), Conf(t'.pc, q, t'.vec);
    var k: nat :| Run(code, s, 3, |code|, c, d, k);
    StandStill(code, s, 3, |code|, e);
    MoveRun(code, s, 3, |code|, d, e, e, 0);
    RunAppend(code, s, 3, |code|, c, d, e, k, 1);
    assert StaysIn(code[t.pc], t.pc, 3, |code|);
  }

  lemma SplitMovesTo(code: Code, s: seq<Byte>, p: nat, pc: nat, vec: seq<int>)
    requires pc < |code| && code[pc].Split?
    ensures Moves(code, s, Conf(pc, p, vec), Conf(code[pc].x, p, vec))
            && Moves(code, s, Conf(pc, p, vec), Conf(code[pc].y, p, vec))
  {
    SplitMoves(code, s, Conf(pc, p, vec));
  }

  lemma OnwardMoves(code: Code, s: seq<Byte>, p: nat, pc: nat, vec: seq<int>)
    requires CodeLookAheadFree(code) && p <= |s| && pc < |code| && Onward(code[pc], PlaceIn(s, p), pc, vec).Some?
    ensures var t := Onward(code[pc], PlaceIn(s, p), pc, vec).value;
            Moves(code, s, Conf(pc, p, vec), Conf(t.pc, p, t.vec))
  {
    var t := Onward(code[pc], PlaceIn(s, p), pc, vec).value;
    assert Next(code, s, Conf(pc, p, vec)) == [Conf(t.pc, p, t.vec)];
  }

  /** A match found by a run that left the search loop at `i`. */
  ghost predicate Found(code: Code, s: seq<Byte>, n: nat, i: nat, h: Hit) {
    exists p: nat, pc: nat :: pc < |code| && code[pc] == Match(h.id) && i <= p <= |s|
                              && Begun(code, s, n, i, p, Thread(pc, h.vec))
  }

  /** All that is new on a list comes from runs that started at `i`. */
  ghost predicate NewFrom(code: Code, s: seq<Byte>, n: nat, i: nat, p: nat, old': seq<Thread>, new': seq<Thread>) {
    && old' <= new'
    && forall k :: |old'| <= k < |new'| ==> new'[k].pc >= 3 && Begun(code, s, n, i, p, new'[k])
  }

  lemma NewFromTwice(code: Code, s: seq<Byte>, n: nat, i: nat, p: nat, a: seq<Thread>, b: seq<Thread>, c: seq<Thread>)
    requires NewFrom(code, s, n, i, p, a, b) && NewFrom(code, s, n, i, p, b, c)
    ensures NewFrom(code, s, n, i, p, a, c)
  {
    forall k | |a| <= k < |c| ensures c[k].pc >= 3 && Begun(code, s, n, i, p, c[k]) {
      if k < |b| { assert c[k] == b[k]; }
    }
  }

  /** What Add puts on a list or reports belongs to runs through `pc`. */
  lemma {:induction false} AddSound(code: Code, s: seq<Byte>, n: nat, i: nat, p: nat, visited: set<nat>,
                                    threads: seq<Thread>,
                                    pc: nat, vec: seq<int>, stop: bool)
    requires Searching(code) && CodeLookAheadFree(code) && i <= p <= |s|
    requires pc >= 3 && Begun(code, s, n, i, p, Thread(pc, vec))
    ensures var r := Add(code, PlaceIn(s, p), visited, threads, pc, vec, stop);
            && NewFrom(code, s, n, i, p, threads, r.threads)
            && (r.hit.Some? ==> Found(code, s, n, i, r.hit.value))
            && (forall v :: v in r.visited && v !in visited ==> v >= 3)
    decreases UpTo(|code|) - visited, if pc in visited then 1 else 0
  {
    var at := PlaceIn(s, p);
    var r := Add(code, at, visited, threads, pc, vec, stop);
    hide Begun, Searching, CodeLookAheadFree, PlaceIn, Onward, Moves;
    if pc < |code| && pc in visited {
      if code[pc].Split? && code[pc].y !in visited {
        SplitMovesTo(code, s, p, pc, vec);
        BegunMoves(code, s, n, i, p, Thread(pc, vec), p, Thread(code[pc].y, vec));
        AddSound(code, s, n, i, p, visited, threads, code[pc].y, vec, stop);
      }
    } else if pc < |code| {
      var seen := visited + {pc};
      if code[pc].Split? {
        SplitMovesTo(code, s, p, pc, vec);
        BegunMoves(code, s, n, i, p, Thread(pc, vec), p, Thread(code[pc].x, vec));
        BegunMoves(code, s, n, i, p, Thread(pc, vec), p, Thread(code[pc].y, vec));
        AddSound(code, s, n, i, p, seen, threads, code[pc].x, vec, stop);
        var l := Add(code, at, seen, threads, code[pc].x, vec, stop);
        if l.hit.None? {
          AddSound(code, s, n, i, p, l.visited, l.threads, code[pc].y, vec, stop);
          NewFromTwice(code, s, n, i, p, threads, l.threads, r.threads);
        }
      } else if !Waits(code[pc]) && Onward(code[pc], at, pc, vec).Some? {
        var t := Onward(code[pc], at, pc, vec).value;
        OnwardMoves(code, s, p, pc, vec);
        BegunMoves(code, s, n, i, p, Thread(pc, vec), p, t);
        AddSound(code, s, n, i, p, seen, threads, t.pc, t.vec, stop);
      }
    }
  }

  /** Each visited instruction that waits is on the list. */
  ghost predicate Kept(code: Code, visited: set<nat>, threads: seq<Thread>) {
    forall v :: v in visited && v < |code| && Waits(code[v]) ==> exists k :: 0 <= k < |threads| && threads[k].pc == v
  }

  lemma LiveTargets(code: Code, at: Place, pc: nat, vec: seq<int>)
    requires WellTargeted(code) && Live(code, pc)
    ensures pc < |code|
    ensures code[pc].Split? ==> Live(code, code[pc].x) && Live(code, code[pc].y)
    ensures Onward(code[pc], at, pc, vec).Some? ==> Live(code, Onward(code[pc], at, pc, vec).value.pc)
    ensures code[pc].Consuming() ==> Live(code, pc + 1)
  {
    if code[pc].Split? { assert Target(code[pc], pc, code[pc].x) && Target(code[pc], pc, code[pc].y); }
    if Onward(code[pc], at, pc, vec).Some? { assert Target(code[pc], pc, Onward(code[pc], at, pc, vec).value.pc); }
    if code[pc].Consuming() { assert Target(code[pc], pc, pc + 1); }
  }

  lemma CloseUp(code: Code, s: seq<Byte>, p: nat, before: set<nat>, after: set<nat>, pc: nat)
    requires ClosedSince(code, s, p, before + {pc}, after)
    requires forall w :: Eps(code, s, p, pc, w) ==> w in after
    ensures ClosedSince(code, s, p, before, after) && pc in after
  {
  }

  lemma ClosedSame(code: Code, s: seq<Byte>, p: nat, visited: set<nat>)
    ensures ClosedSince(code, s, p, visited, visited)
  {
  }

  lemma KeptEps(code: Code, visited: set<nat>, threads: seq<Thread>, pc: nat)
    requires Kept(code, visited, threads) && pc < |code| && !Waits(code[pc])
    ensures Kept(code, visited + {pc}, threads)
  {
  }

  /** Unless it stops at a match, Add visits everything behind `pc` and keeps
      what waits. */
  lemma {:induction false} AddComplete(code: Code, s: seq<Byte>, p: nat, visited: set<nat>, threads: seq<Thread>,
                                       pc: nat, vec: seq<int>, stop: bool)
    requires CodeLookAheadFree(code) && p <= |s| && Kept(code, visited, threads)
    requires WellTargeted(code) && Live(code, pc)
    ensures var r := Add(code, PlaceIn(s, p), visited, threads, pc, vec, stop);
            r.hit.None? ==>
              && ClosedSince(code, s, p, visited, r.visited) && Kept(code, r.visited, r.threads)
              && pc in r.visited
    decreases UpTo(|code|) - visited, if pc in visited then 1 else 0
  {
    var at := PlaceIn(s, p);
    var r := Add(code, at, visited, threads, pc, vec, stop);
    hide ClosedSince, Kept, WellTargeted, Live, CodeLookAheadFree, PlaceIn, Onward, Waits, Eps;
    LiveTargets(code, at, pc, vec);
    if pc in visited {
      ClosedSame(code, s, p, visited);
      if code[pc].Split? && code[pc].y !in visited {
        AddComplete(code, s, p, visited, threads, code[pc].y, vec, stop);
      }
    } else {
      var seen := visited + {pc};
      ClosedSame(code, s, p, seen);
      EpsLeads(code, s, p, pc, vec);
      if code[pc].Split? {
        SplitNeverWaits(code[pc]);
        KeptEps(code, visited, threads, pc);
        AddComplete(code, s, p, seen, threads, code[pc].x, vec, stop);
        var l := Add(code, at, seen, threads, code[pc].x, vec, stop);
        if l.hit.None? {
          AddComplete(code, s, p, l.visited, l.threads, code[pc].y, vec, stop);
          if r.hit.None? { ClosedTwice(code, s, p, seen, l.visited, r.visited); }
        }
      } else if Waits(code[pc]) {
        KeptMore(code, visited, threads, pc, vec);
      } else {
        KeptEps(code, visited, threads, pc);
        if Onward(code[pc], at, pc, vec).Some? {
          var t := Onward(code[pc], at, pc, vec).value;
          AddComplete(code, s, p, seen, threads, t.pc, t.vec, stop);
        }
      }
      if r.hit.None? { CloseUp(code, s, p, visited, r.visited, pc); }
    }
  }

  lemma SplitNeverWaits(inst: Inst)
    requires inst.Split?
    ensures !Waits(inst)
  {
  }

  lemma KeptMore(code: Code, visited: set<nat>, threads: seq<Thread>, pc: nat, vec: seq<int>)
    requires Kept(code, visited, threads)
    ensures Kept(code, visited + {pc}, threads + [Thread(pc, vec)])
  {
    var more := threads + [Thread(pc, vec)];
    forall v | v in visited + {pc} && v < |code| && Waits(code[v])
      ensures exists k :: 0 <= k < |more| && more[k].pc == v
    {
      if v == pc {
        assert more[|threads|].pc == v;
      } else {
        var k :| 0 <= k < |threads| && threads[k].pc == v;
        assert more[k].pc == v;
      }
    }
  }

  /** The non-consuming moves from `pc`, as Add follows them. */
  lemma EpsLeads(code: Code, s: seq<Byte>, p: nat, pc: nat, vec: seq<int>)
    requires CodeLookAheadFree(code) && p <= |s| && pc < |code|
    ensures code[pc].Split? ==> forall w :: Eps(code, s, p, pc, w) ==> w == code[pc].x || w == code[pc].y
    ensures Waits(code[pc]) ==> forall w :: !Eps(code, s, p, pc, w)
    ensures !code[pc].Split? && !Waits(code[pc]) ==>
      forall w :: Eps(code, s, p, pc, w) ==>
        Onward(code[pc], PlaceIn(s, p), pc, vec).Some? && w == Onward(code[pc], PlaceIn(s, p), pc, vec).value.pc
  {
    EpsTargets(code, s, p, pc);
  }

  lemma BegunHere(code: Code, s: seq<Byte>, n: nat, i: nat)
    ensures Begun(code, s, n, i, i, Thread(3, Blank(n)))
  {
    StandStill(code, s, 3, |code|, Conf(3, i, Blank(n)));
  }

  lemma BegunLive(code: Code, s: seq<Byte>, n: nat, i: nat, p: nat, t: Thread)
    requires Searching(code) && WellTargeted(code) && Begun(code, s, n, i, p, t)
    ensures Live(code, t.pc)
  {
    assert Target(code[0], 0, 3);
    var k: nat :| Run(code, s, 3, |code|, Conf(3, i, Blank(n)), Conf(t.pc, p, t.vec), k);
    RunFromLive(code, s, 3, Conf(3, i, Blank(n)), Conf(t.pc, p, t.vec), k);
  }

  /** The thread of the search loop. */
  function Searcher(n: nat): Thread {
    Thread(1, Blank(n))
  }

  /** When the search thread has consumed a byte it starts the regexes at the next
      position and stays behind them. */
  lemma SearcherAdds(code: Code, at: Place, visited: set<nat>, next: seq<Thread>, n: nat)
    requires Searching(code) && forall v :: v in visited ==> v >= 3
    ensures var l := Add(code, at, visited + {2, 0}, next, 3, Blank(n), true);
            var r := Add(code, at, visited, next, 2, Blank(n), true);
            if l.hit.Some? then r == l
            else if 1 in l.visited then r.hit.None? && r.visited == l.visited && r.threads == l.threads
            else r == Added(l.visited + {1}, l.threads + [Searcher(n)], None)
  {
    var seen := visited + {2} + {0};
    assert seen == visited + {2, 0};
    var l := Add(code, at, seen, next, 3, Blank(n), true);
    assert Add(code, at, visited, next, 2, Blank(n), true) == Add(code, at, visited + {2}, next, 0, Blank(n), true);
    assert Add(code, at, visited + {2}, next, 0, Blank(n), true)
           == if l.hit.Some? then l else Add(code, at, l.visited, l.threads, 1, Blank(n), true);
  }

  /* Thread lists with the position each thread's run left the search loop at. */

  ghost predicate Tagged(code: Code, s: seq<Byte>, n: nat, p: nat, t: Thread, start: nat) {
    t.pc >= 3 && start <= p && t.pc < |code| && Waits(code[t.pc]) && Begun(code, s, n, start, p, t)
  }

  ghost predicate Sorted(starts: seq<nat>) {
    forall j, k :: 0 <= j < k < |starts| ==> starts[j] <= starts[k]
  }

  /** The threads of the regexes, earliest start first; last, if it is still
      there, the search thread, which can start at the next position. */
  ghost predicate Tracked(code: Code, s: seq<Byte>, n: nat, p: nat, list: seq<Thread>, starts: seq<nat>) {
    && |starts| == |list| && Sorted(starts)
    && forall k :: 0 <= k < |list| ==>
         || Tagged(code, s, n, p, list[k], starts[k])
         || (k == |list| - 1 && list[k] == Searcher(n) && starts[k] == p + 1)
  }

  ghost predicate AllTagged(code: Code, s: seq<Byte>, n: nat, p: nat, list: seq<Thread>, starts: seq<nat>, bound: nat) {
    && |starts| == |list| && Sorted(starts)
    && forall k :: 0 <= k < |list| ==> Tagged(code, s, n, p, list[k], starts[k]) && starts[k] <= bound
  }

  /** Everything that waits behind `u` is on the list with a start up to `bound`. */
  ghost predicate Leads(code: Code, s: seq<Byte>, q: nat, threads: seq<Thread>, starts: seq<nat>, u: nat, bound: nat)
    requires |starts| == |threads|
  {
    exists v :: u in v && ClosedSince(code, s, q, {}, v) && OnList(code, v, threads, starts, bound)
  }

  ghost predicate OnList(code: Code, v: set<nat>, threads: seq<Thread>, starts: seq<nat>, bound: nat)
    requires |starts| == |threads|
  {
    forall w :: w in v && 3 <= w < |code| && Waits(code[w]) ==>
        exists k :: 0 <= k < |threads| && threads[k].pc == w && starts[k] <= bound
  }

  lemma LeadsMore(code: Code, s: seq<Byte>, q: nat, threads: seq<Thread>, starts: seq<nat>, threads': seq<Thread>,
                  starts': seq<nat>, u: nat, bound: nat)
    requires |starts| == |threads| && |starts'| == |threads'| && threads <= threads' && starts <= starts'
    requires Leads(code, s, q, threads, starts, u, bound)
    ensures Leads(code, s, q, threads', starts', u, bound)
  {
    var v :| u in v && ClosedSince(code, s, q, {}, v) && OnList(code, v, threads, starts, bound);
    forall w | w in v && 3 <= w < |code| && Waits(code[w])
      ensures exists k :: 0 <= k < |threads'| && threads'[k].pc == w && starts'[k] <= bound
    {
      var k :| 0 <= k < |threads| && threads[k].pc == w && starts[k] <= bound;
      assert threads'[k].pc == w && starts'[k] <= bound;
    }
    assert OnList(code, v, threads', starts', bound);
  }

  /** How Add extends a tracked list with what starts at `i`. */
  lemma TaggedMore(code: Code, s: seq<Byte>, n: nat, p: nat, i: nat, list: seq<Thread>, starts: seq<nat>,
                   list': seq<Thread>)
    returns (starts': seq<nat>)
    requires AllTagged(code, s, n, p, list, starts, i) && i <= p
    requires NewFrom(code, s, n, i, p, list, list') && AllWait(code, list')
    ensures AllTagged(code, s, n, p, list', starts', i) && starts <= starts'
    ensures forall x :: x in starts' ==> x in starts || x == i
  {
    starts' := starts + seq(|list'| - |list|, _ => i);
    forall k | 0 <= k < |list'|
      ensures Tagged(code, s, n, p, list'[k], starts'[k]) && starts'[k] <= i
    {
      if k < |list| { assert list'[k] == list[k]; }
    }
  }

  /** The state of a step: what has been visited and put on the next list. */
  ghost predicate Building(code: Code, s: seq<Byte>, n: nat, q: nat, visited: set<nat>, next: seq<Thread>,
                           nstarts: seq<nat>, bound: nat) {
    && (forall v :: v in visited ==> v >= 3)
    && ClosedSince(code, s, q, {}, visited) && Kept(code, visited, next)
    && AllTagged(code, s, n, q, next, nstarts, bound)
  }

  lemma BuildingLeads(code: Code, s: seq<Byte>, n: nat, q: nat, visited: set<nat>, next: seq<Thread>,
                      nstarts: seq<nat>, bound: nat, u: nat)
    requires ClosedSince(code, s, q, {}, visited) && Kept(code, visited, next) && u in visited
    requires |nstarts| == |next| && forall k :: 0 <= k < |next| && next[k].pc >= 3 ==> nstarts[k] <= bound
    ensures Leads(code, s, q, next, nstarts, u, bound)
  {
    forall w | w in visited && 3 <= w < |code| && Waits(code[w])
      ensures exists k :: 0 <= k < |next| && next[k].pc == w && nstarts[k] <= bound
    {
      var k :| 0 <= k < |next| && next[k].pc == w;
    }
    assert OnList(code, visited, next, nstarts, bound);
  }

  /** A thread of a regex consumes the byte at `p`. */
  lemma FeedTagged(code: Code, s: seq<Byte>, n: nat, p: nat, t: Thread, start: nat, visited: set<nat>,
                   next: seq<Thread>, nstarts: seq<nat>)
    returns (ns: seq<nat>)
    requires Searching(code) && CodeLookAheadFree(code) && WellTargeted(code) && p < |s|
    requires Tagged(code, s, n, p, t, start) && !code[t.pc].Match? && code[t.pc].Accepts(s[p])
    requires Building(code, s, n, p + 1, visited, next, nstarts, start) && AllWait(code, next)
    ensures var r := Add(code, PlaceIn(s, p + 1), visited, next, t.pc + 1, t.vec, true);
            && AllTagged(code, s, n, p + 1, r.threads, ns, start) && nstarts <= ns
            && (forall x :: x in ns ==> x in nstarts || x == start)
            && (r.hit.Some? ==> Found(code, s, n, start, r.hit.value))
            && (r.hit.None? ==> Building(code, s, n, p + 1, r.visited, r.threads, ns, start)
                                && Leads(code, s, p + 1, r.threads, ns, t.pc + 1, start))
  {
    hide Searching, WellTargeted, CodeLookAheadFree, PlaceIn, Add, Begun, Live, Waits, Found, NewFrom, ClosedSince,
        Kept, AllTagged, Leads, AllWait;
    hide Tagged;
    var r := Add(code, PlaceIn(s, p + 1), visited, next, t.pc + 1, t.vec, true);
    var u := Thread(t.pc + 1, t.vec);
    FedBegun(code, s, n, p, t, start);
    AddSound(code, s, n, start, p + 1, visited, next, u.pc, u.vec, true);
    AddComplete(code, s, p + 1, visited, next, u.pc, u.vec, true);
    AddWaits(code, PlaceIn(s, p + 1), visited, next, u.pc, u.vec, true);
    ns := TaggedMore(code, s, n, p + 1, start, next, nstarts, r.threads);
    if r.hit.None? {
      FromNothing(code, s, p + 1, visited, r.visited);
      TaggedBound(code, s, n, p + 1, r.threads, ns, start);
      BuildingLeads(code, s, n, p + 1, r.visited, r.threads, ns, start, u.pc);
    }
  }

  /** Where a thread is behind its byte. */
  lemma FedBegun(code: Code, s: seq<Byte>, n: nat, p: nat, t: Thread, start: nat)
    requires Searching(code) && CodeLookAheadFree(code) && WellTargeted(code) && p < |s|
    requires Tagged(code, s, n, p, t, start) && !code[t.pc].Match? && code[t.pc].Accepts(s[p])
    ensures var u := Thread(t.pc + 1, t.vec);
            start <= p && u.pc >= 3 && Begun(code, s, n, start, p + 1, u) && Live(code, u.pc)
  {
    hide Searching, WellTargeted, CodeLookAheadFree, PlaceIn, Begun, Live;
    ConsumeMoves(code, s, p, t);
    BegunLive(code, s, n, start, p, t);
    BegunMoves(code, s, n, start, p, t, p + 1, Thread(t.pc + 1, t.vec));
    LiveTargets(code, PlaceIn(s, p), t.pc, t.vec);
  }

  lemma ConsumeMoves(code: Code, s: seq<Byte>, p: nat, t: Thread)
    requires CodeLookAheadFree(code) && p < |s| && t.pc < |code| && Waits(code[t.pc]) && !code[t.pc].Match?
             && code[t.pc].Accepts(s[p])
    ensures code[t.pc].Consuming() && Moves(code, s, Conf(t.pc, p, t.vec), Conf(t.pc + 1, p + 1, t.vec))
  {
    assert Next(code, s, Conf(t.pc, p, t.vec)) == [Conf(t.pc + 1, p + 1, t.vec)];
  }

  lemma FromNothing(code: Code, s: seq<Byte>, q: nat, a: set<nat>, b: set<nat>)
    requires ClosedSince(code, s, q, {}, a) && ClosedSince(code, s, q, a, b)
    ensures ClosedSince(code, s, q, {}, b)
  {
    ClosedTwice(code, s, q, {}, a, b);
  }

  lemma TaggedBound(code: Code, s: seq<Byte>, n: nat, q: nat, list: seq<Thread>, starts: seq<nat>, bound: nat)
    requires AllTagged(code, s, n, q, list, starts, bound)
    ensures |starts| == |list| && forall k :: 0 <= k < |list| && list[k].pc >= 3 ==> starts[k] <= bound
  {
  }

  /** The search thread consumes the byte at `p`. */
  lemma FeedSearcher(code: Code, s: seq<Byte>, n: nat, p: nat, visited: set<nat>, next: seq<Thread>, nstarts: seq<nat>)
    returns (ns: seq<nat>)
    requires Searching(code) && CodeLookAheadFree(code) && WellTargeted(code) && p < |s|
    requires Building(code, s, n, p + 1, visited, next, nstarts, p + 1) && AllWait(code, next)
    ensures var r := Add(code, PlaceIn(s, p + 1), visited, next, 2, Blank(n), true);
            && Tracked(code, s, n, p + 1, r.threads, ns) && nstarts <= ns
            && (forall x :: x in ns ==> x in nstarts || x == p + 1 || (x == p + 2 && r.hit.None?))
            && (r.hit.Some? ==> Found(code, s, n, p + 1, r.hit.value))
            && (r.hit.None? ==> Leads(code, s, p + 1, r.threads, ns, 3, p + 1)
                                && |r.threads| > 0 && r.threads[|r.threads| - 1] == Searcher(n))
  {
    hide WellTargeted, CodeLookAheadFree, PlaceIn, Add, Begun, Live, Waits, Found, NewFrom, ClosedSince, Kept,
        AllTagged, Leads, AllWait, Searching, Tracked;
    var at := PlaceIn(s, p + 1);
    var seen := visited + {2, 0};
    var l := Add(code, at, seen, next, 3, Blank(n), true);
    var r := Add(code, at, visited, next, 2, Blank(n), true);
    SearcherAdds(code, at, visited, next, n);
    ThreeLive(code);
    BegunHere(code, s, n, p + 1);
    SearchKept(code, visited, next);
    AddSound(code, s, n, p + 1, p + 1, seen, next, 3, Blank(n), true);
    AddComplete(code, s, p + 1, seen, next, 3, Blank(n), true);
    AddWaits(code, at, seen, next, 3, Blank(n), true);
    ns := TaggedMore(code, s, n, p + 1, p + 1, next, nstarts, l.threads);
    TaggedTracked(code, s, n, p + 1, l.threads, ns, p + 1);
    if r.hit.None? {
      assert 1 !in l.visited;
      SearchClosed(code, s, p + 1, visited, l.visited, l.threads, n);
      ns := ns + [p + 2];
      TaggedBound(code, s, n, p + 1, l.threads, ns[..|l.threads|], p + 1);
      BuildingLeads(code, s, n, p + 1, r.visited, r.threads, ns, p + 1, 3);
    }
  }

  lemma ThreeLive(code: Code)
    requires Searching(code) && WellTargeted(code)
    ensures Live(code, 3)
  {
    hide Live;
    assert Target(code[0], 0, 3);
  }

  lemma SearchKept(code: Code, visited: set<nat>, next: seq<Thread>)
    requires Searching(code) && Kept(code, visited, next)
    ensures Kept(code, visited + {2, 0}, next)
  {
  }

  lemma SearchClosed(code: Code, s: seq<Byte>, q: nat, visited: set<nat>, after: set<nat>, threads: seq<Thread>, n: nat)
    requires Searching(code) && CodeLookAheadFree(code) && q <= |s|
    requires ClosedSince(code, s, q, {}, visited) && ClosedSince(code, s, q, visited + {2, 0}, after) && 3 in after
    requires Kept(code, after, threads)
    ensures ClosedSince(code, s, q, {}, after + {1}) && Kept(code, after + {1}, threads + [Searcher(n)])
  {
    EpsTargets(code, s, q, 0);
    EpsTargets(code, s, q, 1);
    EpsTargets(code, s, q, 2);
    KeptMore(code, after, threads, 1, Blank(n));
    assert code[0].x == 3 && code[0].y == 1;
  }

  /** A list of tagged threads, and the search thread behind them. */
  lemma TaggedTracked(code: Code, s: seq<Byte>, n: nat, p: nat, list: seq<Thread>, starts: seq<nat>, bound: nat)
    requires AllTagged(code, s, n, p, list, starts, bound) && bound <= p
    ensures Tracked(code, s, n, p, list, starts)
    ensures Tracked(code, s, n, p, list + [Searcher(n)], starts + [p + 1])
  {
    var list', starts' := list + [Searcher(n)], starts + [p + 1];
    forall k | 0 <= k < |list'|
      ensures Tagged(code, s, n, p, list'[k], starts'[k])
              || (k == |list'| - 1 && list'[k] == Searcher(n) && starts'[k] == p + 1)
    {
      if k < |list| { assert list'[k] == list[k]; }
    }
  }

  /** What a step did for a thread that started at `start`: either a match that
      starts no later was found, or the thread was no MATCH and everything its
      byte leads to is on the next list. */
  ghost predicate Served(code: Code, s: seq<Byte>, p: nat, t: Thread, start: nat, r: Added, ns: seq<nat>, hs: nat)
    requires |ns| == |r.threads|
  {
    || (r.hit.Some? && hs <= start)
    || (&& t.pc < |code| && !code[t.pc].Match?
        && (p < |s| && code[t.pc].Accepts(s[p]) ==>
            Leads(code, s, p + 1, r.threads, ns, if t.pc == 1 then 3 else t.pc + 1, start)))
  }

  ghost predicate AllServed(code: Code, s: seq<Byte>, p: nat, list: seq<Thread>, starts: seq<nat>, r: Added,
                            ns: seq<nat>, hs: nat)
    requires |ns| == |r.threads| && |starts| == |list|
  {
    forall k :: 0 <= k < |list| ==> Served(code, s, p, list[k], starts[k], r, ns, hs)
  }

  /** The outcome of running a tracked list. */
  ghost predicate Ran(code: Code, s: seq<Byte>, n: nat, p: nat, list: seq<Thread>, starts: seq<nat>, nstarts: seq<nat>,
                      r: Added, ns: seq<nat>, hs: nat)
    requires |starts| == |list|
  {
    && Tracked(code, s, n, p + 1, r.threads, ns) && nstarts <= ns
    && (r.hit.Some? ==> Found(code, s, n, hs, r.hit.value) && hs in starts && forall x :: x in ns ==> x <= hs)
    && (forall x :: x in ns ==> x in nstarts || x in starts || (x == p + 2 && p + 1 in starts))
    && (r.hit.None? && p < |s| && list != [] && list[|list| - 1] == Searcher(n) ==>
        r.threads != [] && r.threads[|r.threads| - 1] == Searcher(n))
    && AllServed(code, s, p, list, starts, r, ns, hs)
  }

  lemma MatchFound(code: Code, s: seq<Byte>, n: nat, p: nat, t: Thread, start: nat)
    requires Tagged(code, s, n, p, t, start) && code[t.pc].Match? && p <= |s|
    ensures Found(code, s, n, start, Hit(code[t.pc].id, t.vec))
  {
  }

  lemma TaggedWider(code: Code, s: seq<Byte>, n: nat, q: nat, visited: set<nat>, next: seq<Thread>, nstarts: seq<nat>,
                    bound: nat, bound': nat)
    requires Building(code, s, n, q, visited, next, nstarts, bound) && bound <= bound'
    ensures Building(code, s, n, q, visited, next, nstarts, bound')
  {
    hide ClosedSince, Kept, Tagged;
  }

  lemma TrackedTail(code: Code, s: seq<Byte>, n: nat, p: nat, list: seq<Thread>, starts: seq<nat>)
    requires Tracked(code, s, n, p, list, starts) && list != []
    ensures Tracked(code, s, n, p, list[1..], starts[1..])
    ensures Tagged(code, s, n, p, list[0], starts[0])
            || (list[1..] == [] && list[0] == Searcher(n) && starts[0] == p + 1)
    ensures list[1..] != [] ==> starts[0] <= starts[1]
  {
    hide Tagged;
    forall k | 0 <= k < |list| - 1
      ensures Tagged(code, s, n, p, list[1..][k], starts[1..][k])
              || (k == |list| - 2 && list[1..][k] == Searcher(n) && starts[1..][k] == p + 1)
    {
      assert list[1..][k] == list[k + 1] && starts[1..][k] == starts[k + 1];
    }
  }

  /** One thread of RunThreads. */
  lemma RunHead(code: Code, c: Option<Byte>, there: Place, list: seq<Thread>, visited: set<nat>, next: seq<Thread>)
    requires list != [] && list[0].pc < |code|
    ensures var r, t := RunThreads(code, c, there, list, visited, next), list[0];
            if code[t.pc].Match? then r == Added(visited, next, Some(Hit(code[t.pc].id, t.vec)))
            else if c.Some? && code[t.pc].Accepts(c.value) then
              var r0 := Add(code, there, visited, next, t.pc + 1, t.vec, true);
              r == if r0.hit.Some? then r0 else RunThreads(code, c, there, list[1..], r0.visited, r0.threads)
            else r == RunThreads(code, c, there, list[1..], visited, next)
  {
  }

  lemma RunNone(code: Code, c: Option<Byte>, there: Place, visited: set<nat>, next: seq<Thread>)
    ensures RunThreads(code, c, there, [], visited, next) == Added(visited, next, None)
  {
  }

  lemma RunExtends(code: Code, c: Option<Byte>, there: Place, list: seq<Thread>, visited: set<nat>, next: seq<Thread>)
    ensures next <= RunThreads(code, c, there, list, visited, next).threads
  {
  }

  /** ... the thread of a regex that consumes the byte. */
  lemma {:induction false} RunTrackedFeed(code: Code, s: seq<Byte>, n: nat, p: nat, list: seq<Thread>, starts: seq<nat>,
                                          visited: set<nat>, next: seq<Thread>, nstarts: seq<nat>)
    returns (ns: seq<nat>, hs: nat)
    requires Searching(code) && CodeLookAheadFree(code) && WellTargeted(code) && p < |s|
    requires Tracked(code, s, n, p, list, starts) && list != [] && Tagged(code, s, n, p, list[0], starts[0])
    requires !code[list[0].pc].Match? && code[list[0].pc].Accepts(s[p])
    requires Building(code, s, n, p + 1, visited, next, nstarts, starts[0]) && AllWait(code, next)
    ensures Ran(code, s, n, p, list, starts, nstarts,
                RunThreads(code, ByteAt(s, p), PlaceIn(s, p + 1), list, visited, next), ns, hs)
    decreases |list|, 0
  {
    hide *;
    var there := PlaceIn(s, p + 1);
    var r := RunThreads(code, ByteAt(s, p), there, list, visited, next);
    TrackedLength(code, s, n, p, list, starts);
    var t, start := list[0], starts[0];
    TaggedPc(code, s, n, p, t, start);
    TrackedTail(code, s, n, p, list, starts);
    RunHead(code, ByteAt(s, p), there, list, visited, next);
    ByteIs(s, p);
    SearcherIsAny(code, n);
    var r0 := Add(code, there, visited, next, t.pc + 1, t.vec, true);
    AddWaits(code, there, visited, next, t.pc + 1, t.vec, true);
    ns := FeedTagged(code, s, n, p, t, start, visited, next, nstarts);
    if r0.hit.Some? {
      hs := start;
      AllTaggedTracked(code, s, n, p + 1, r0.threads, ns, start);
      HeadHit(code, s, n, p, list, starts, nstarts, r, ns);
    } else {
      var ns0 := ns;
      TaggedBound(code, s, n, p + 1, r0.threads, ns0, start)
          by { BuildingTagged(code, s, n, p + 1, r0.visited, r0.threads, ns0, start); }
      RunExtends(code, ByteAt(s, p), there, list[1..], r0.visited, r0.threads);
      ns, hs := RunTracked(code, s, n, p, list[1..], starts[1..], r0.visited, r0.threads, ns0, start);
      RanLength(code, s, n, p, list[1..], starts[1..], ns0, r, ns, hs);
      ServedHead(code, s, n, p, list, starts, nstarts, r0.threads, ns0, r, ns, hs);
    }
  }

  /** One step keeps the list tracked and serves every thread. */
  lemma {:induction false} RunTracked(code: Code, s: seq<Byte>, n: nat, p: nat, list: seq<Thread>, starts: seq<nat>,
                                      visited: set<nat>, next: seq<Thread>, nstarts: seq<nat>, bound: nat)
    returns (ns: seq<nat>, hs: nat)
    requires Searching(code) && CodeLookAheadFree(code) && WellTargeted(code) && p <= |s|
    requires Tracked(code, s, n, p, list, starts) && (list != [] ==> bound <= starts[0]) && bound <= p
    requires Building(code, s, n, p + 1, visited, next, nstarts, bound) && AllWait(code, next)
    ensures Ran(code, s, n, p, list, starts, nstarts,
                RunThreads(code, ByteAt(s, p), PlaceIn(s, p + 1), list, visited, next), ns, hs)
    decreases |list|, 1
  {
    hide *;
    var there := PlaceIn(s, p + 1);
    var r := RunThreads(code, ByteAt(s, p), there, list, visited, next);
    ns, hs := nstarts, 0;
    TrackedLength(code, s, n, p, list, starts);
    if list == [] {
      RunNone(code, ByteAt(s, p), there, visited, next);
      BuildingTracked(code, s, n, p + 1, visited, next, nstarts, bound);
      AllNone(code, s, n, p, starts, nstarts, r);
      return;
    }
    var t, start := list[0], starts[0];
    TrackedTail(code, s, n, p, list, starts);
    SearcherIsAny(code, n);
    ByteIs(s, p);
    if Tagged(code, s, n, p, t, start) {
      TaggedWider(code, s, n, p + 1, visited, next, nstarts, bound, start);
      TaggedPc(code, s, n, p, t, start);
      RunHead(code, ByteAt(s, p), there, list, visited, next);
      if code[t.pc].Match? {
        MatchFound(code, s, n, p, t, start);
        hs := start;
        BuildingTracked(code, s, n, p + 1, visited, next, nstarts, start);
        HeadHit(code, s, n, p, list, starts, nstarts, r, ns);
      } else if p < |s| && code[t.pc].Accepts(s[p]) {
        ns, hs := RunTrackedFeed(code, s, n, p, list, starts, visited, next, nstarts);
      } else {
        ns, hs := RunTracked(code, s, n, p, list[1..], starts[1..], visited, next, nstarts, start);
        RanLength(code, s, n, p, list[1..], starts[1..], nstarts, r, ns, hs);
        SkippedHead(code, s, n, p, list, starts, nstarts, r, ns, hs);
      }
    } else {
      RunHead(code, ByteAt(s, p), there, list, visited, next);
      RunNone(code, ByteAt(s, p), there, visited, next);
      AnyAccepts(code, s, p);
      if p < |s| {
        TaggedWider(code, s, n, p + 1, visited, next, nstarts, bound, p + 1);
        ns := FeedSearcher(code, s, n, p, visited, next, nstarts);
        hs := p + 1;
        var r0 := Add(code, there, visited, next, 2, Blank(n), true);
        RunNone(code, ByteAt(s, p), there, r0.visited, r0.threads);
        TrackedLength(code, s, n, p + 1, r0.threads, ns);
        SearcherRan(code, s, n, p, list, starts, nstarts, visited, next, r, ns, bound);
      } else {
        SearcherEnded(code, s, n, p, list, starts, nstarts, visited, next, r, bound);
      }
    }
  }

  lemma RanLength(code: Code, s: seq<Byte>, n: nat, p: nat, list: seq<Thread>, starts: seq<nat>, nstarts: seq<nat>,
                  r: Added, ns: seq<nat>, hs: nat)
    requires |starts| == |list| && Ran(code, s, n, p, list, starts, nstarts, r, ns, hs)
    ensures |ns| == |r.threads|
  {
  }

  lemma TrackedLength(code: Code, s: seq<Byte>, n: nat, p: nat, list: seq<Thread>, starts: seq<nat>)
    requires Tracked(code, s, n, p, list, starts)
    ensures |starts| == |list|
  {
  }

  lemma ByteIs(s: seq<Byte>, p: nat)
    ensures p < |s| ==> ByteAt(s, p) == Some(s[p])
    ensures p >= |s| ==> ByteAt(s, p) == None
  {
  }

  lemma AnyAccepts(code: Code, s: seq<Byte>, p: nat)
    requires |code| > 3 && code[1] == Any
    ensures p < |s| ==> code[1].Accepts(s[p])
  {
  }

  lemma BuildingTagged(code: Code, s: seq<Byte>, n: nat, q: nat, visited: set<nat>, next: seq<Thread>,
                       nstarts: seq<nat>, bound: nat)
    requires Building(code, s, n, q, visited, next, nstarts, bound)
    ensures AllTagged(code, s, n, q, next, nstarts, bound)
  {
  }

  /** A match found for the first thread starts no later than any other thread. */
  lemma HeadHit(code: Code, s: seq<Byte>, n: nat, p: nat, list: seq<Thread>, starts: seq<nat>, nstarts: seq<nat>,
                r: Added, ns: seq<nat>)
    requires Tracked(code, s, n, p, list, starts) && list != [] && r.hit.Some?
    requires Tracked(code, s, n, p + 1, r.threads, ns) && nstarts <= ns && forall x :: x in ns ==>
             x <= starts[0] && (x in nstarts || x == starts[0])
    requires Found(code, s, n, starts[0], r.hit.value)
    ensures Ran(code, s, n, p, list, starts, nstarts, r, ns, starts[0])
  {
    hide Leads, Tagged, Found;
    assert starts[0] in starts;
  }

  lemma SearcherEnded(code: Code, s: seq<Byte>, n: nat, p: nat, list: seq<Thread>, starts: seq<nat>, nstarts: seq<nat>,
                      visited: set<nat>, next: seq<Thread>, r: Added, bound: nat)
    requires p >= |s| && |code| > 3 && code[1] == Any && |starts| == 1 && list == [Searcher(n)]
    requires Building(code, s, n, p + 1, visited, next, nstarts, bound) && r == Added(visited, next, None)
    ensures Ran(code, s, n, p, list, starts, nstarts, r, nstarts, 0)
  {
    hide Leads, Tracked, Found;
    BuildingTracked(code, s, n, p + 1, visited, next, nstarts, bound);
  }

  lemma TaggedPc(code: Code, s: seq<Byte>, n: nat, p: nat, t: Thread, start: nat)
    requires Tagged(code, s, n, p, t, start)
    ensures 3 <= t.pc < |code| && start <= p
  {
  }

  lemma SearcherIsAny(code: Code, n: nat)
    requires Searching(code)
    ensures |code| > 3 && code[1] == Any && Searcher(n).pc == 1 && Searcher(n).vec == Blank(n)
  {
  }

  lemma AllTaggedTracked(code: Code, s: seq<Byte>, n: nat, q: nat, list: seq<Thread>, starts: seq<nat>, bound: nat)
    requires AllTagged(code, s, n, q, list, starts, bound)
    ensures Tracked(code, s, n, q, list, starts) && forall x :: x in starts ==> x <= bound
  {
    hide Tagged;
  }

  lemma BuildingTracked(code: Code, s: seq<Byte>, n: nat, q: nat, visited: set<nat>, next: seq<Thread>,
                        nstarts: seq<nat>, bound: nat)
    requires Building(code, s, n, q, visited, next, nstarts, bound)
    ensures Tracked(code, s, n, q, next, nstarts) && forall x :: x in nstarts ==> x <= bound
  {
    AllTaggedTracked(code, s, n, q, next, nstarts, bound);
  }

  lemma AllNone(code: Code, s: seq<Byte>, n: nat, p: nat, starts: seq<nat>, nstarts: seq<nat>, r: Added)
    requires r.hit.None? && Tracked(code, s, n, p + 1, r.threads, nstarts) && starts == []
    ensures Ran(code, s, n, p, [], starts, nstarts, r, nstarts, 0)
  {
    hide Tagged;
  }

  lemma ServedHead(code: Code, s: seq<Byte>, n: nat, p: nat, list: seq<Thread>, starts: seq<nat>, nstarts: seq<nat>,
                   threads0: seq<Thread>, ns0: seq<nat>, r: Added, ns: seq<nat>, hs: nat)
    requires |starts| == |list| && list != [] && list[0].pc < |code| && !code[list[0].pc].Match? && list[0].pc != 1
    requires |ns0| == |threads0| && threads0 <= r.threads
    requires Leads(code, s, p + 1, threads0, ns0, list[0].pc + 1, starts[0])
    requires nstarts <= ns0 && forall x :: x in ns0 ==> x in nstarts || x == starts[0]
    requires Ran(code, s, n, p, list[1..], starts[1..], ns0, r, ns, hs) && |ns| == |r.threads|
    requires list[1..] == [] ==> list[0] != Searcher(n)
    ensures Ran(code, s, n, p, list, starts, nstarts, r, ns, hs)
  {
    hide Leads, Tracked, Found;
    LeadsMore(code, s, p + 1, threads0, ns0, r.threads, ns, list[0].pc + 1, starts[0]);
    forall k | 0 <= k < |list| ensures Served(code, s, p, list[k], starts[k], r, ns, hs) {
      if k > 0 { assert Served(code, s, p, list[1..][k - 1], starts[1..][k - 1], r, ns, hs); }
    }
    assert starts[0] in starts && forall x :: x in starts[1..] ==> x in starts;
  }

  lemma SkippedHead(code: Code, s: seq<Byte>, n: nat, p: nat, list: seq<Thread>, starts: seq<nat>, nstarts: seq<nat>,
                    r: Added, ns: seq<nat>, hs: nat)
    requires |starts| == |list| && list != [] && list[0].pc < |code| && !code[list[0].pc].Match?
    requires !(p < |s| && code[list[0].pc].Accepts(s[p]))
    requires Ran(code, s, n, p, list[1..], starts[1..], nstarts, r, ns, hs) && |ns| == |r.threads|
    requires list[1..] == [] ==> list[0] != Searcher(n)
    ensures Ran(code, s, n, p, list, starts, nstarts, r, ns, hs)
  {
    hide Leads, Tracked, Found;
    forall k | 0 <= k < |list| ensures Served(code, s, p, list[k], starts[k], r, ns, hs) {
      if k > 0 { assert Served(code, s, p, list[1..][k - 1], starts[1..][k - 1], r, ns, hs); }
    }
    assert forall x :: x in starts[1..] ==> x in starts;
  }

  lemma SearcherRan(code: Code, s: seq<Byte>, n: nat, p: nat, list: seq<Thread>, starts: seq<nat>, nstarts: seq<nat>,
                    visited: set<nat>, next: seq<Thread>, r: Added, ns: seq<nat>, bound: nat)
    requires p < |s| && bound <= p && |code| > 3 && code[1] == Any && |starts| == 1 && list == [Searcher(n)]
             && starts[0] == p + 1
    requires Building(code, s, n, p + 1, visited, next, nstarts, bound)
    requires Tracked(code, s, n, p + 1, r.threads, ns) && nstarts <= ns && |ns| == |r.threads|
    requires forall x :: x in ns ==> x in nstarts || x == p + 1 || (x == p + 2 && r.hit.None?)
    requires r.hit.Some? ==> Found(code, s, n, p + 1, r.hit.value)
    requires r.hit.None? ==> Leads(code, s, p + 1, r.threads, ns, 3, p + 1)
    requires r.hit.None? ==> |r.threads| > 0 && r.threads[|r.threads| - 1] == Searcher(n)
    ensures Ran(code, s, n, p, list, starts, nstarts, r, ns, p + 1)
  {
    hide Leads, Tracked, Found;
    BuildingTracked(code, s, n, p + 1, visited, next, nstarts, bound);
    assert starts[0] in starts;
  }

  /* Nothing is missed. */

  /** `threads` misses no start up to `p`: whatever waits at `pc` on a run that left
      the search loop at `i` has a thread there that started no later, or a match
      that starts no later is known. */
  ghost predicate Complete(code: Code, s: seq<Byte>, p: nat, list: seq<Thread>, starts: seq<nat>, known: Option<nat>)
    requires |starts| == |list|
  {
    forall i: nat, v: nat :: v < |code| && Waits(code[v]) && From(code, s, i, p, v) ==>
      Early(list, starts, known, v, i)
  }

  ghost predicate Early(list: seq<Thread>, starts: seq<nat>, known: Option<nat>, v: nat, i: nat)
    requires |starts| == |list|
  {
    || (known.Some? && known.value <= i)
    || exists k :: 0 <= k < |list| && list[k].pc == v && starts[k] <= i
  }

  /** The last step into (v, q) of a run from the entry of the regexes. */
  lemma LastFrom(code: Code, s: seq<Byte>, i: nat, v: nat, q: nat, k: nat) returns (u: nat, o: nat)
    requires k > 0 && Run(code, s, 3, |code|, Conf(3, i, []), Conf(v, q, []), k)
    ensures 3 <= u < |code| && Run(code, s, 3, |code|, Conf(3, i, []), Conf(u, o, []), k - 1)
    ensures (o == q && Eps(code, s, q, u, v))
            || (o + 1 == q && code[u].Consuming() && o < |s| && code[u].Accepts(s[o]) && v == u + 1)
  {
    var b := RunLast(code, s, 3, |code|, Conf(3, i, []), Conf(v, q, []), k);
    RunBounds(code, s, 3, |code|, Conf(3, i, []), b, k - 1);
    assert b == Conf(b.pc, b.pos, []);
    u, o := b.pc, b.pos;
  }

  /** At position `q` a run is where a run of the position before led to, or where
      it started. */
  lemma {:induction false} LastByte(code: Code, s: seq<Byte>, i: nat, v: nat, q: nat, k: nat) returns (u: nat)
    requires i < q && Run(code, s, 3, |code|, Conf(3, i, []), Conf(v, q, []), k)
    ensures 3 <= u < |code| && code[u].Consuming() && q - 1 < |s| && code[u].Accepts(s[q - 1])
            && From(code, s, i, q - 1, u)
    ensures forall vs: set<nat> :: ClosedSince(code, s, q, {}, vs) && u + 1 in vs ==> v in vs
    decreases k
  {
    var w, o := LastFrom(code, s, i, v, q, k);
    if o == q {
      u := LastByte(code, s, i, w, q, k - 1);
    } else {
      u := w;
    }
  }

  lemma {:induction false} StartClosed(code: Code, s: seq<Byte>, i: nat, v: nat, k: nat, vs: set<nat>)
    requires Run(code, s, 3, |code|, Conf(3, i, []), Conf(v, i, []), k)
    requires ClosedSince(code, s, i, {}, vs) && 3 in vs
    ensures v in vs
    decreases k
  {
    if k > 0 {
      var u, o := LastFrom(code, s, i, v, i, k);
      RunBounds(code, s, 3, |code|, Conf(3, i, []), Conf(u, o, []), k - 1);
      StartClosed(code, s, i, u, k - 1, vs);
    }
  }

  lemma FromBounds(code: Code, s: seq<Byte>, i: nat, p: nat, v: nat)
    requires Searching(code) && From(code, s, i, p, v)
    ensures i <= p && v >= 3
  {
    var k: nat :| Run(code, s, 3, |code|, Conf(3, i, []), Conf(v, p, []), k);
    RunBounds(code, s, 3, |code|, Conf(3, i, []), Conf(v, p, []), k);
    RunWiden(code, s, 3, |code|, 0, |code|, Conf(3, i, []), Conf(v, p, []), k);
    StaysBehind(code, s, Conf(3, i, []), Conf(v, p, []), k);
  }

  function Known(r: Added, hs: nat, known: Option<nat>): Option<nat> {
    if r.hit.Some? then Some(hs) else known
  }

  /** No start on the list is later than the best match known. */
  ghost predicate Bounded(list: seq<Thread>, starts: seq<nat>, known: Option<nat>, p: nat, n: nat) {
    && (known.Some? ==> known.value <= p && forall x :: x in starts ==> x <= known.value)
    && (known.None? ==> list != [] && list[|list| - 1] == Searcher(n))
  }

  lemma KnownEarlier(starts: seq<nat>, r: Added, hs: nat, known: Option<nat>, i: nat)
    requires r.hit.Some? ==> hs in starts
    requires known.Some? ==> forall x :: x in starts ==> x <= known.value
    requires known.Some? && known.value <= i
    ensures Known(r, hs, known).Some? && Known(r, hs, known).value <= i
  {
  }

  /** If everything waiting behind `u` is on the list, so is `v`. */
  lemma LedEarly(code: Code, s: seq<Byte>, q: nat, threads: seq<Thread>, starts: seq<nat>, u: nat, bound: nat, v: nat,
                 i: nat, known: Option<nat>)
    requires |starts| == |threads| && Leads(code, s, q, threads, starts, u, bound) && bound <= i
    requires forall vs: set<nat> :: ClosedSince(code, s, q, {}, vs) && u in vs ==> v in vs
    requires 3 <= v < |code| && Waits(code[v])
    ensures Early(threads, starts, known, v, i)
  {
    hide ClosedSince;
    var vs :| u in vs && ClosedSince(code, s, q, {}, vs) && OnList(code, vs, threads, starts, bound);
    assert v in vs;
  }

  /** A step misses nothing. */
  lemma StepComplete(code: Code, s: seq<Byte>, n: nat, p: nat, list: seq<Thread>, starts: seq<nat>, known: Option<nat>,
                     r: Added, ns: seq<nat>, hs: nat)
    requires Searching(code) && p < |s| && |starts| == |list| && Tracked(code, s, n, p, list, starts)
    requires Complete(code, s, p, list, starts, known) && Bounded(list, starts, known, p, n)
    requires Ran(code, s, n, p, list, starts, [], r, ns, hs) && |ns| == |r.threads|
    ensures Complete(code, s, p + 1, r.threads, ns, Known(r, hs, known))
  {
    forall i: nat, v: nat | v < |code| && Waits(code[v]) && From(code, s, i, p + 1, v)
      ensures Early(r.threads, ns, Known(r, hs, known), v, i)
    {
      StepEarly(code, s, n, p, list, starts, known, r, ns, hs, i, v);
    }
  }

  lemma StepEarly(code: Code, s: seq<Byte>, n: nat, p: nat, list: seq<Thread>, starts: seq<nat>, known: Option<nat>,
                  r: Added, ns: seq<nat>, hs: nat, i: nat, v: nat)
    requires Searching(code) && p < |s| && |starts| == |list| && Tracked(code, s, n, p, list, starts)
    requires Complete(code, s, p, list, starts, known) && Bounded(list, starts, known, p, n)
    requires Ran(code, s, n, p, list, starts, [], r, ns, hs) && |ns| == |r.threads|
    requires v < |code| && Waits(code[v]) && From(code, s, i, p + 1, v)
    ensures Early(r.threads, ns, Known(r, hs, known), v, i)
  {
    hide *;
    FromBounds(code, s, i, p + 1, v);
    var k := FromRun(code, s, i, p + 1, v);
    RanServed(code, s, n, p, list, starts, [], r, ns, hs);
    if i <= p {
      var u := LastByte(code, s, i, v, p + 1, k);
      assert Waits(code[u]) by { ConsumingWaits(code[u]); }
      assert Early(list, starts, known, u, i) by { CompleteEarly(code, s, p, list, starts, known, i, u); }
      BoundedStarts(list, starts, known, p, n);
      ServedEarly(code, s, p, list, starts, known, r, ns, hs, u, i, v);
    } else {
      forall vs: set<nat> | ClosedSince(code, s, i, {}, vs) && 3 in vs
        ensures v in vs { StartClosed(code, s, i, v, k, vs); }
      StartedEarly(code, s, n, p, list, starts, known, r, ns, hs, i, v);
    }
  }

  lemma BoundedStarts(list: seq<Thread>, starts: seq<nat>, known: Option<nat>, p: nat, n: nat)
    requires Bounded(list, starts, known, p, n)
    ensures known.Some? ==> forall x :: x in starts ==> x <= known.value
  {
  }

  lemma FromRun(code: Code, s: seq<Byte>, i: nat, p: nat, v: nat) returns (k: nat)
    requires From(code, s, i, p, v)
    ensures Run(code, s, 3, |code|, Conf(3, i, []), Conf(v, p, []), k)
  {
    k :| Run(code, s, 3, |code|, Conf(3, i, []), Conf(v, p, []), k);
  }

  lemma ConsumingWaits(inst: Inst)
    requires inst.Consuming()
    ensures Waits(inst)
  {
  }

  lemma CompleteEarly(code: Code, s: seq<Byte>, p: nat, list: seq<Thread>, starts: seq<nat>, known: Option<nat>,
                      i: nat, v: nat)
    requires |starts| == |list| && Complete(code, s, p, list, starts, known) && v < |code| && Waits(code[v])
             && From(code, s, i, p, v)
    ensures Early(list, starts, known, v, i)
  {
  }

  lemma RanServed(code: Code, s: seq<Byte>, n: nat, p: nat, list: seq<Thread>, starts: seq<nat>, nstarts: seq<nat>,
                  r: Added, ns: seq<nat>, hs: nat)
    requires |starts| == |list| && Ran(code, s, n, p, list, starts, nstarts, r, ns, hs) && |ns| == |r.threads|
    ensures AllServed(code, s, p, list, starts, r, ns, hs) && (r.hit.Some? ==> hs in starts)
  {
  }

  /** What waited at `u` with an early start had an early thread; where it led has one now. */
  lemma ServedEarly(code: Code, s: seq<Byte>, p: nat, list: seq<Thread>, starts: seq<nat>, known: Option<nat>,
                    r: Added, ns: seq<nat>, hs: nat, u: nat, i: nat, v: nat)
    requires p < |s| && |starts| == |list| && |ns| == |r.threads| && AllServed(code, s, p, list, starts, r, ns, hs)
    requires r.hit.Some? ==> hs in starts
    requires known.Some? ==> forall x :: x in starts ==> x <= known.value
    requires 3 <= u < |code| && code[u].Accepts(s[p]) && Early(list, starts, known, u, i)
    requires forall vs: set<nat> :: ClosedSince(code, s, p + 1, {}, vs) && u + 1 in vs ==> v in vs
    requires 3 <= v < |code| && Waits(code[v])
    ensures Early(r.threads, ns, Known(r, hs, known), v, i)
  {
    hide Leads, ClosedSince, Waits;
    if known.Some? && known.value <= i {
      KnownEarlier(starts, r, hs, known, i);
    } else {
      var j :| 0 <= j < |list| && list[j].pc == u && starts[j] <= i;
      assert Served(code, s, p, list[j], starts[j], r, ns, hs);
      if !(r.hit.Some? && hs <= starts[j]) {
        LedEarly(code, s, p + 1, r.threads, ns, u + 1, starts[j], v, i, Known(r, hs, known));
      }
    }
  }

  /** What starts at the new position was started by the search thread. */
  lemma StartedEarly(code: Code, s: seq<Byte>, n: nat, p: nat, list: seq<Thread>, starts: seq<nat>, known: Option<nat>,
                     r: Added, ns: seq<nat>, hs: nat, i: nat, v: nat)
    requires Searching(code) && p < |s| && |starts| == |list| && Tracked(code, s, n, p, list, starts)
    requires Bounded(list, starts, known, p, n) && i == p + 1
    requires |ns| == |r.threads| && AllServed(code, s, p, list, starts, r, ns, hs)
    requires r.hit.Some? ==> hs in starts
    requires forall vs: set<nat> :: ClosedSince(code, s, i, {}, vs) && 3 in vs ==> v in vs
    requires 3 <= v < |code| && Waits(code[v])
    ensures Early(r.threads, ns, Known(r, hs, known), v, i)
  {
    hide Leads, ClosedSince, Waits, Tagged;
    if known.Some? {
      KnownEarlier(starts, r, hs, known, i);
    } else {
      var j := |list| - 1;
      SearcherStart(code, s, n, p, list, starts);
      assert Served(code, s, p, list[j], starts[j], r, ns, hs);
      if !(r.hit.Some? && hs <= starts[j]) {
        LedEarly(code, s, p + 1, r.threads, ns, 3, starts[j], v, i, Known(r, hs, known));
      }
    }
  }

  lemma SearcherStart(code: Code, s: seq<Byte>, n: nat, p: nat, list: seq<Thread>, starts: seq<nat>)
    requires Searching(code) && Tracked(code, s, n, p, list, starts) && list != [] && list[|list| - 1] == Searcher(n)
    ensures starts[|list| - 1] == p + 1 && code[1] == Any
  {
  }

  /** Every match that ends before `e` starts no earlier than the one known. */
  ghost predicate AllBefore(code: Code, s: seq<Byte>, e: nat, known: Option<nat>) {
    forall i: nat, v: nat, j: nat ::
      j < e && v < |code| && code[v].Match? && From(code, s, i, j, v) ==> known.Some? && known.value <= i
  }

  /** `answer` is a match of some run, none that starts earlier exists; or there is
      no match at all. */
  ghost predicate Leftmost(code: Code, s: seq<Byte>, n: nat, answer: Option<Hit>, known: Option<nat>) {
    && known.Some? == answer.Some?
    && (answer.Some? ==> Found(code, s, n, known.value, answer.value))
    && AllBefore(code, s, |s| + 1, known)
  }

  ghost predicate SearchInv(code: Code, s: seq<Byte>, n: nat, p: nat, list: seq<Thread>, starts: seq<nat>,
                            matched: Option<Hit>, known: Option<nat>)
  {
    && Tracked(code, s, n, p, list, starts) && Complete(code, s, p, list, starts, known)
    && Bounded(list, starts, known, p, n) && AllBefore(code, s, p, known)
    && known.Some? == matched.Some?
    && (matched.Some? ==> Found(code, s, n, known.value, matched.value))
  }

  /** A run past `p` waits somewhere at `p`. */
  lemma {:induction false} CrossFrom(code: Code, s: seq<Byte>, i: nat, v: nat, j: nat, p: nat) returns (u: nat)
    requires i <= p <= j && v < |code| && Waits(code[v]) && From(code, s, i, j, v)
    ensures u < |code| && Waits(code[u]) && From(code, s, i, p, u)
    decreases j
  {
    if j == p {
      u := v;
    } else {
      var k: nat :| Run(code, s, 3, |code|, Conf(3, i, []), Conf(v, j, []), k);
      u := LastByte(code, s, i, v, j, k);
      u := CrossFrom(code, s, i, u, j - 1, p);
    }
  }

  lemma NothingMore(code: Code, s: seq<Byte>, n: nat, p: nat, known: Option<nat>, e: nat)
    requires Searching(code) && Complete(code, s, p, [], [], known) && Bounded([], [], known, p, n)
             && AllBefore(code, s, p, known)
    ensures AllBefore(code, s, e, known)
  {
    forall i: nat, v: nat, j: nat | j < e && v < |code| && code[v].Match? && From(code, s, i, j, v)
      ensures known.Some? && known.value <= i
    {
      if i <= p <= j {
        var u := CrossFrom(code, s, i, v, j, p);
        assert Early([], [], known, u, i);
      } else {
        FromBounds(code, s, i, j, v);
      }
    }
  }

  lemma StepBefore(code: Code, s: seq<Byte>, n: nat, p: nat, list: seq<Thread>, starts: seq<nat>, known: Option<nat>,
                   r: Added, ns: seq<nat>, hs: nat)
    requires |starts| == |list| && Complete(code, s, p, list, starts, known) && Bounded(list, starts, known, p, n)
    requires AllBefore(code, s, p, known)
    requires Ran(code, s, n, p, list, starts, [], r, ns, hs) && |ns| == |r.threads|
    ensures AllBefore(code, s, p + 1, Known(r, hs, known))
  {
    hide Tracked, Found, Leads, From;
    forall i: nat, v: nat, j: nat | j < p + 1 && v < |code| && code[v].Match? && From(code, s, i, j, v)
      ensures Known(r, hs, known).Some? && Known(r, hs, known).value <= i
    {
      if j == p { assert Early(list, starts, known, v, i); }
      if known.Some? && known.value <= i {
        KnownEarlier(starts, r, hs, known, i);
      } else {
        var k :| 0 <= k < |list| && list[k].pc == v && starts[k] <= i;
        assert Served(code, s, p, list[k], starts[k], r, ns, hs);
      }
    }
  }

  lemma StepBounded(code: Code, s: seq<Byte>, n: nat, p: nat, list: seq<Thread>, starts: seq<nat>, known: Option<nat>,
                    r: Added, ns: seq<nat>, hs: nat)
    requires p < |s| && Tracked(code, s, n, p, list, starts) && Bounded(list, starts, known, p, n)
    requires Ran(code, s, n, p, list, starts, [], r, ns, hs)
    ensures Bounded(r.threads, ns, Known(r, hs, known), p + 1, n)
  {
    hide Found, Leads, AllServed;
  }

  /** Nothing is known or started before `low`. */
  ghost predicate NoneBelow(starts: seq<nat>, known: Option<nat>, low: nat) {
    && (forall x :: x in starts ==> low <= x)
    && (known.Some? ==> low <= known.value)
  }

  lemma StepNoneBelow(code: Code, s: seq<Byte>, n: nat, p: nat, list: seq<Thread>, starts: seq<nat>, known: Option<nat>,
                      r: Added, ns: seq<nat>, hs: nat, low: nat)
    requires |starts| == |list| && Ran(code, s, n, p, list, starts, [], r, ns, hs)
    requires NoneBelow(starts, known, low)
    ensures NoneBelow(ns, Known(r, hs, known), low)
  {
    hide Tracked, Found, AllServed;
  }

  /** One position of the search keeps what is known about it. */
  lemma StepKeeps(code: Code, s: seq<Byte>, n: nat, p: nat, list: seq<Thread>, starts: seq<nat>,
                  matched: Option<Hit>, known: Option<nat>) returns (ns: seq<nat>, known': Option<nat>)
    requires Searching(code) && CodeLookAheadFree(code) && WellTargeted(code) && p <= |s| && list != []
    requires SearchInv(code, s, n, p, list, starts, matched, known)
    ensures var r := Step(code, s, p, list);
            && known'.Some? == OrElse(r.hit, matched).Some?
            && (known'.Some? ==> Found(code, s, n, known'.value, OrElse(r.hit, matched).value))
            && AllBefore(code, s, p + 1, known')
            && (p < |s| ==> SearchInv(code, s, n, p + 1, r.threads, ns, OrElse(r.hit, matched), known'))
    ensures forall low: nat :: NoneBelow(starts, known, low) ==> NoneBelow(ns, known', low)
  {
    hide Searching, CodeLookAheadFree, WellTargeted, Tracked, Complete, Bounded, AllBefore, Found, RunThreads,
        Building, AllTagged;
    hide PlaceIn, ByteAt, NoneBelow;
    var r := Step(code, s, p, list);
    BuildFrom(code, s, n, p + 1);
    TrackedLength(code, s, n, p, list, starts);
    var hs: nat;
    ns, hs := RunTracked(code, s, n, p, list, starts, {}, [], [], 0);
    RanLength(code, s, n, p, list, starts, [], r, ns, hs);
    known' := Known(r, hs, known);
    StepBefore(code, s, n, p, list, starts, known, r, ns, hs);
    BoundedStarts(list, starts, known, p, n);
    hide AllServed;
    forall low: nat | NoneBelow(starts, known, low) ensures NoneBelow(ns, known', low) {
      StepNoneBelow(code, s, n, p, list, starts, known, r, ns, hs, low);
    }
    if p < |s| {
      StepComplete(code, s, n, p, list, starts, known, r, ns, hs);
      StepBounded(code, s, n, p, list, starts, known, r, ns, hs);
    }
  }

  lemma {:induction false} SearchLeftmost(code: Code, s: seq<Byte>, n: nat, p: nat, list: seq<Thread>, starts: seq<nat>,
                                          matched: Option<Hit>, known: Option<nat>) returns (best: Option<nat>)
    requires Searching(code) && CodeLookAheadFree(code) && WellTargeted(code) && p <= |s|
    requires SearchInv(code, s, n, p, list, starts, matched, known)
    ensures Leftmost(code, s, n, Scan(code, s, p, list, matched), best)
    ensures forall low: nat :: NoneBelow(starts, known, low) && best.Some? ==> low <= best.value
    decreases |s| - p
  {
    hide Searching, CodeLookAheadFree, WellTargeted, Tracked, Complete, Bounded, AllBefore, Found, RunThreads,
        PlaceIn, ByteAt;
    if list == [] {
      best := known;
      TrackedLength(code, s, n, p, list, starts);
      NothingMore(code, s, n, p, known, |s| + 1);
    } else {
      var r := Step(code, s, p, list);
      var ns, known' := StepKeeps(code, s, n, p, list, starts, matched, known);
      if p == |s| {
        best := known';
      } else {
        best := SearchLeftmost(code, s, n, p + 1, r.threads, ns, OrElse(r.hit, matched), known');
      }
    }
  }

  lemma BuildFrom(code: Code, s: seq<Byte>, n: nat, q: nat)
    ensures Building(code, s, n, q, {}, [], [], 0) && AllWait(code, [])
  {
  }

  /** The list the search starts with. */
  lemma BeginTracked(code: Code, s: seq<Byte>, n: nat) returns (starts: seq<nat>)
    requires Searching(code) && CodeLookAheadFree(code) && WellTargeted(code)
    ensures SearchInv(code, s, n, 0, Begin(code, PlaceIn(s, 0), n).threads, starts, None, None)
  {
    var at := PlaceIn(s, 0);
    var l := Add(code, at, {0}, [], 3, Blank(n), false);
    var r := Begin(code, at, n);
    BeginNeverHits(code, at, {0}, [], 3, Blank(n));
    BegunHere(code, s, n, 0);
    assert Live(code, 3) by { assert Target(code[0], 0, 3); }
    assert Kept(code, {0}, []);
    AddSound(code, s, n, 0, 0, {0}, [], 3, Blank(n), false);
    AddComplete(code, s, 0, {0}, [], 3, Blank(n), false);
    AddWaits(code, at, {0}, [], 3, Blank(n), false);
    assert 1 !in l.visited && {} + {0} == {0};
    assert Begin(code, at, n) == Added(l.visited + {1}, l.threads + [Searcher(n)], None) by {
      assert r == Add(code, at, l.visited, l.threads, 1, Blank(n), false);
    }
    hide Add, CodeLookAheadFree, WellTargeted, Begin, PlaceIn, Begun, Waits, Live;
    starts := TaggedMore(code, s, n, 0, 0, [], [], l.threads);
    TaggedTracked(code, s, n, 0, l.threads, starts, 0);
    TaggedBound(code, s, n, 0, l.threads, starts, 0);
    BeginComplete(code, s, n, l.visited, l.threads, starts);
    starts := starts + [1];
  }

  lemma BeginComplete(code: Code, s: seq<Byte>, n: nat, visited: set<nat>, threads: seq<Thread>, starts: seq<nat>)
    requires Searching(code) && CodeLookAheadFree(code)
    requires ClosedSince(code, s, 0, {0}, visited) && Kept(code, visited, threads) && 3 in visited
    requires |starts| == |threads| && forall k :: 0 <= k < |threads| && threads[k].pc >= 3 ==> starts[k] <= 0
    ensures Complete(code, s, 0, threads + [Searcher(n)], starts + [1], None)
  {
    EpsTargets(code, s, 0, 0);
    EpsTargets(code, s, 0, 1);
    assert ClosedSince(code, s, 0, {}, visited + {1});
    KeptMore(code, visited, threads, 1, Blank(n));
    BuildingLeads(code, s, n, 0, visited + {1}, threads + [Searcher(n)], starts + [1], 0, 3);
    forall i: nat, v: nat | v < |code| && Waits(code[v]) && From(code, s, i, 0, v)
      ensures Early(threads + [Searcher(n)], starts + [1], None, v, i)
    {
      FromBounds(code, s, i, 0, v);
      var k: nat :| Run(code, s, 3, |code|, Conf(3, i, []), Conf(v, 0, []), k);
      forall vs: set<nat> | ClosedSince(code, s, 0, {}, vs) && 3 in vs
        ensures v in vs { StartClosed(code, s, 0, v, k, vs); }
      LedEarly(code, s, 0, threads + [Searcher(n)], starts + [1], 3, 0, v, i, None);
    }
  }

  /* For programs. */

  /** The capture vector holds the $0 window of every regex. */
  ghost predicate WindowsFit(bs: seq<Branch>, n: nat) {
    forall k :: 0 <= k < |bs| ==> 2 * bs[k].group + 1 < n
  }

  /** The start and end that an answer reports for the regex it names. */
  function StartOf(bs: seq<Branch>, h: Hit): int
    requires h.id < |bs| && 2 * bs[h.id].group + 1 < |h.vec|
  {
    h.vec[2 * bs[h.id].group]
  }

  function EndOf(bs: seq<Branch>, h: Hit): int
    requires h.id < |bs| && 2 * bs[h.id].group + 1 < |h.vec|
  {
    h.vec[2 * bs[h.id].group + 1]
  }

  /** The range reported matches the regex named. */
  ghost predicate RightRange(bs: seq<Branch>, s: seq<Byte>, h: Hit) {
    && h.id < |bs| && 2 * bs[h.id].group + 1 < |h.vec|
    && 0 <= StartOf(bs, h) <= EndOf(bs, h) <= |s|
    && Matches(bs[h.id].tree, s, StartOf(bs, h), EndOf(bs, h))
  }

  /** A correct leftmost answer about the regexes alone: the range reported matches
      the regex named, and no match of any regex starts earlier; or nothing matches. */
  ghost predicate LeftmostMatch(bs: seq<Branch>, s: seq<Byte>, answer: Option<Hit>) {
    match answer
    case None => !MatchExists(bs, s)
    case Some(h) =>
      && RightRange(bs, s, h)
      && forall id: nat, i: nat, j: nat :: id < |bs| && j <= |s| && Matches(bs[id].tree, s, i, j) ==>
      StartOf(bs, h) <= i
  }

  lemma FoundMatches(code: Code, bs: seq<Branch>, s: seq<Byte>, n: nat, i: nat, h: Hit)
    requires ProgramOf(code, bs) && WindowsFit(bs, n) && Found(code, s, n, i, h)
    ensures h.id < |bs| && 2 * bs[h.id].group + 1 < |h.vec| && StartOf(bs, h) == i
    ensures i <= EndOf(bs, h) <= |s| && Matches(bs[h.id].tree, s, i, EndOf(bs, h))
  {
    hide Layout, ProgramLen, Matches;
    ProgramSearches(code, bs);
    var p: nat, pc: nat :| pc < |code| && code[pc] == Match(h.id) && i <= p <= |s|
        && Begun(code, s, n, i, p, Thread(pc, h.vec));
    var k: nat :| Run(code, s, 3, |code|, Conf(3, i, Blank(n)), Conf(pc, p, h.vec), k);
    RunBounds(code, s, 3, |code|, Conf(3, i, Blank(n)), Conf(pc, p, h.vec), k);
    RunWiden(code, s, 3, |code|, 0, |code|, Conf(3, i, Blank(n)), Conf(pc, p, h.vec), k);
    StaysBehind(code, s, Conf(3, i, Blank(n)), Conf(pc, p, h.vec), k);
    var id := ProgramRunMatches(code, bs, s, i, Blank(n), Conf(pc, p, h.vec), k);
  }

  lemma MatchesFrom(code: Code, bs: seq<Branch>, s: seq<Byte>, id: nat, i: nat, j: nat) returns (v: nat)
    requires ProgramOf(code, bs) && id < |bs| && Matches(bs[id].tree, s, i, j)
    ensures v < |code| && code[v].Match? && From(code, s, i, j, v)
  {
    hide Layout, ProgramLen, Matches;
    ProgramSearches(code, bs);
    var d, k := MatchesChainRun(code, s, 3, bs, id, Conf(3, i, []), j);
    RunBounds(code, s, 3, |code|, Conf(3, i, []), d, k);
    assert d == Conf(d.pc, j, []);
    v := d.pc;
  }

  /** The theorem: for every set of look-ahead-free regexes, empty loops included,
      Pike finds a match exactly when there is one; the range it reports matches
      the regex it names; and no match of any regex in the set starts earlier. */
  lemma PikeIsLeftmost(code: Code, bs: seq<Branch>, s: seq<Byte>, n: nat)
    requires ProgramOf(code, bs) && BranchesLookAheadFree(bs) && WindowsFit(bs, n)
    ensures LeftmostMatch(bs, s, Answer(code, s, n))
  {
    hide ProgramOf, Scan, Matches, Begin, SearchInv, Searching, WellTargeted, CodeLookAheadFree, Found, From, PlaceIn;
    ProgramRuns(code, bs);
    assert Searching(code) by { ProgramSearches(code, bs); }
    var starts := BeginTracked(code, s, n);
    var best := SearchLeftmost(code, s, n, 0, Begin(code, PlaceIn(s, 0), n).threads, starts, None, None);
    var answer := Answer(code, s, n);
    if answer.Some? { FoundMatches(code, bs, s, n, best.value, answer.value); }
    forall id: nat, i: nat, j: nat | id < |bs| && j <= |s| && Matches(bs[id].tree, s, i, j)
      ensures best.Some? && best.value <= i
    {
      var v := MatchesFrom(code, bs, s, id, i, j);
    }
  }
}
