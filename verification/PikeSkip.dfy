/** When the jump to the next leading byte cannot be seen in an answer. */
module PikeSkip {
  import opened Regexes
  import opened Bytecode
  import opened Programs
  import opened Finite
  import opened Thompson
  import opened PikeMachine
  import opened LeadingBytes
  import opened PikeStream
  import opened PikePriority
  import opened PikeLeftmost

  /* What a list does next depends on its instructions only. */

  ghost predicate Alike(a: seq<Thread>, b: seq<Thread>) {
    |a| == |b| && forall k :: 0 <= k < |a| ==> a[k].pc == b[k].pc
  }

  ghost predicate AlikeAdded(a: Added, b: Added) {
    a.visited == b.visited && Alike(a.threads, b.threads) && a.hit.Some? == b.hit.Some?
  }

  /** The same look-behind. */
  ghost predicate SameView(a: Place, b: Place) {
    a.start == b.start && a.line == b.line
  }

  lemma OnwardAlike(inst: Inst, at: Place, at': Place, pc: nat, vec: seq<int>, vec': seq<int>)
    requires SameView(at, at')
    ensures var a, b := Onward(inst, at, pc, vec), Onward(inst, at', pc, vec');
            a.Some? == b.Some? && (a.Some? ==> a.value.pc == b.value.pc)
  {
  }

  lemma {:induction false} AddAlike(code: Code, at: Place, at': Place, visited: set<nat>, threads: seq<Thread>,
                                    threads': seq<Thread>,
                                    pc: nat, vec: seq<int>, vec': seq<int>, stop: bool)
    requires SameView(at, at') && Alike(threads, threads')
    ensures AlikeAdded(Add(code, at, visited, threads, pc, vec, stop),
                       Add(code, at', visited, threads', pc, vec', stop))
    decreases UpTo(|code|) - visited, if pc in visited then 1 else 0
  {
    hide Waits, Onward, SameView;
    if pc < |code| { OnwardAlike(code[pc], at, at', pc, vec, vec'); }
    if pc < |code| && pc in visited {
      if code[pc].Split?
          && code[pc].y !in visited { AddAlike(code, at, at', visited, threads, threads', code[pc].y, vec, vec',
                                               stop); }
    } else if pc < |code| {
      var seen := visited + {pc};
      if code[pc].Split? {
        AddAlike(code, at, at', seen, threads, threads', code[pc].x, vec, vec', stop);
        var l, l' := Add(code, at, seen, threads, code[pc].x, vec, stop),
            Add(code, at', seen, threads', code[pc].x, vec', stop);
        if l.hit.None? { AddAlike(code, at, at', l.visited, l.threads, l'.threads, code[pc].y, vec, vec', stop); }
      } else if !Waits(code[pc]) && Onward(code[pc], at, pc, vec).Some? {
        var t, t' := Onward(code[pc], at, pc, vec).value, Onward(code[pc], at', pc, vec').value;
        AddAlike(code, at, at', seen, threads, threads', t.pc, t.vec, t'.vec, stop);
      }
    }
  }

  lemma {:induction false} RunAlike(code: Code, c: Option<Byte>, there: Place, there': Place, list: seq<Thread>,
                                    list': seq<Thread>,
                                    visited: set<nat>, next: seq<Thread>, next': seq<Thread>)
    requires SameView(there, there') && Alike(list, list') && Alike(next, next')
    ensures AlikeAdded(RunThreads(code, c, there, list, visited, next),
                       RunThreads(code, c, there', list', visited, next'))
    decreases |list|
  {
    hide Add;
    if list != [] {
      var t, t' := list[0], list'[0];
      assert Alike(list[1..], list'[1..]);
      if t.pc < |code| && !code[t.pc].Match? && c.Some? && code[t.pc].Accepts(c.value) {
        AddAlike(code, there, there', visited, next, next', t.pc + 1, t.vec, t'.vec, true);
        var r, r' := Add(code, there, visited, next, t.pc + 1, t.vec, true),
            Add(code, there', visited, next', t.pc + 1, t'.vec, true);
        if r.hit.None? { RunAlike(code, c, there, there', list[1..], list'[1..], r.visited, r.threads, r'.threads); }
      } else {
        RunAlike(code, c, there, there', list[1..], list'[1..], visited, next, next');
      }
    }
  }

  /* The start list of a program with leading bytes. */

  /** From the threads of a covered set only listed bytes lead on. */
  ghost predicate InCover(code: Code, vs: set<nat>, threads: seq<Thread>) {
    forall k :: 0 <= k < |threads| ==> threads[k].pc in vs && threads[k].pc < |code| && code[threads[k].pc].Consuming()
  }

  lemma CoverTargets(code: Code, vs: set<nat>, lead: seq<nat>, at: Place, pc: nat, vec: seq<int>)
    requires Searching(code) && CodeLookAheadFree(code) && Covers(code, vs, {}, lead) && pc in vs && 3 <= pc < |code|
    ensures !code[pc].Match? && (Waits(code[pc]) ==> code[pc].Consuming())
    ensures code[pc].Split? ==> code[pc].x >= 3 && (code[pc].x < |code| ==> code[pc].x in vs) && code[pc].y >= 3
                                && (code[pc].y < |code| ==> code[pc].y in vs)
    ensures !Waits(code[pc]) && Onward(code[pc], at, pc, vec).Some? ==>
              var t := Onward(code[pc], at, pc, vec).value.pc; t >= 3 && (t < |code| ==> t in vs)
  {
    assert StaysIn(code[pc], pc, 3, |code|);
    if code[pc].Split? { assert Target(code[pc], pc, code[pc].x) && Target(code[pc], pc, code[pc].y); }
    if !Waits(code[pc]) && Onward(code[pc], at, pc, vec).Some? {
      assert Target(code[pc], pc, Onward(code[pc], at, pc, vec).value.pc);
    }
  }

  /** In a covered set no match is met, so whether it would stop the search makes
      no difference. */
  lemma {:induction false} AddCovered(code: Code, vs: set<nat>, lead: seq<nat>, at: Place, visited: set<nat>,
                                      threads: seq<Thread>,
                                      pc: nat, vec: seq<int>, stop: bool)
    requires Searching(code) && CodeLookAheadFree(code) && Covers(code, vs, {}, lead)
    requires pc >= 3 && (pc < |code| ==> pc in vs)
    ensures var r := Add(code, at, visited, threads, pc, vec, stop);
            && r.hit.None? && r == Add(code, at, visited, threads, pc, vec, !stop)
            && (InCover(code, vs, threads) ==> InCover(code, vs, r.threads)) && r.visited <= visited + vs
    decreases UpTo(|code|) - visited, if pc in visited then 1 else 0
  {
    if pc < |code| {
      CoverTargets(code, vs, lead, at, pc, vec);
      hide Waits, Onward, Covers, Searching, CodeLookAheadFree;
      if pc in visited {
        if code[pc].Split? && code[pc].y !in visited {
          AddCovered(code, vs, lead, at, visited, threads, code[pc].y, vec, stop);
        }
      } else {
        var seen := visited + {pc};
        if code[pc].Split? {
          AddCovered(code, vs, lead, at, seen, threads, code[pc].x, vec, stop);
          var l := Add(code, at, seen, threads, code[pc].x, vec, stop);
          AddCovered(code, vs, lead, at, l.visited, l.threads, code[pc].y, vec, stop);
        } else if !Waits(code[pc]) && Onward(code[pc], at, pc, vec).Some? {
          var t := Onward(code[pc], at, pc, vec).value;
          AddCovered(code, vs, lead, at, seen, threads, t.pc, t.vec, stop);
        }
      }
    }
  }

  lemma StaysBack(code: Code, at: Place, pc: nat, vec: seq<int>)
    requires Searching(code) && 3 <= pc < |code|
    ensures code[pc].Split? ==> code[pc].x >= 3 && code[pc].y >= 3
    ensures Onward(code[pc], at, pc, vec).Some? ==> Onward(code[pc], at, pc, vec).value.pc >= 3
  {
    assert StaysIn(code[pc], pc, 3, |code|);
  }

  /** The search loop's own instructions make no difference behind it. */
  lemma {:induction false} AddBeside(code: Code, at: Place, visited: set<nat>, extra: set<nat>, threads: seq<Thread>,
                                     pc: nat, vec: seq<int>, stop: bool)
    requires Searching(code) && pc >= 3 && forall v :: v in extra ==> v < 3
    ensures var r := Add(code, at, visited, threads, pc, vec, stop);
            Add(code, at, visited + extra, threads, pc, vec, stop) == Added(r.visited + extra, r.threads, r.hit)
    decreases UpTo(|code|) - visited, if pc in visited then 1 else 0
  {
    if pc < |code| {
      StaysBack(code, at, pc, vec);
      hide Waits, Onward, Searching;
      var seen := visited + {pc};
      assert visited + extra + {pc} == seen + extra;
      if pc in visited {
        if code[pc].Split? && code[pc].y !in visited {
          AddBeside(code, at, visited, extra, threads, code[pc].y, vec, stop);
        }
      } else if code[pc].Split? {
        AddBeside(code, at, seen, extra, threads, code[pc].x, vec, stop);
        var l := Add(code, at, seen, threads, code[pc].x, vec, stop);
        if l.hit.None? { AddBeside(code, at, l.visited, extra, l.threads, code[pc].y, vec, stop); }
      } else if !Waits(code[pc]) && Onward(code[pc], at, pc, vec).Some? {
        var t := Onward(code[pc], at, pc, vec).value;
        AddBeside(code, at, seen, extra, threads, t.pc, t.vec, stop);
      }
    }
  }

  /** A context for a look-ahead-free program whose leading list keeps its promise. */
  ghost predicate Sound(ctx: Setup) {
    && Searching(ctx.code) && CodeLookAheadFree(ctx.code) && WellTargeted(ctx.code)
    && (ctx.lead.Some? ==> LeadsAll(ctx.code, ctx.lead.value))
  }

  /** `vs` shows that the leading list keeps its promise. */
  ghost predicate Cover(ctx: Setup, vs: set<nat>) {
    ctx.lead.Some? && 0 in vs && Covers(ctx.code, vs, {}, ctx.lead.value)
  }

  /** A list that only a leading byte can bring to anything but a new start. */
  ghost predicate Waiting(ctx: Setup, vs: set<nat>, list: seq<Thread>) {
    && list != [] && list[|list| - 1] == Searcher(ctx.slots)
    && InCover(ctx.code, vs, list[..|list| - 1])
  }

  lemma BeginForm(code: Code, at: Place, n: nat)
    requires Searching(code)
    ensures var l := Add(code, at, {0}, [], 3, Blank(n), false);
            1 !in l.visited ==> Begin(code, at, n).threads == l.threads + [Searcher(n)]
  {
    BeginNeverHits(code, at, {0}, [], 3, Blank(n));
    var l := Add(code, at, {0}, [], 3, Blank(n), false);
    assert {} + {0} == {0};
    assert Begin(code, at, n) == Add(code, at, l.visited, l.threads, 1, Blank(n), false);
  }

  lemma CoverEntry(ctx: Setup, vs: set<nat>)
    requires Searching(ctx.code) && Cover(ctx, vs)
    ensures 3 in vs && 1 !in vs
  {
    assert Target(ctx.code[0], 0, 3);
  }

  lemma StartWaiting(ctx: Setup, vs: set<nat>, at: Place)
    requires Sound(ctx) && Cover(ctx, vs)
    ensures ctx.StartList(at) == Add(ctx.code, at, {0}, [], 3, Blank(ctx.slots), false).threads + [Searcher(ctx.slots)]
    ensures Waiting(ctx, vs, ctx.StartList(at))
  {
    var l := Add(ctx.code, at, {0}, [], 3, Blank(ctx.slots), false);
    CoverEntry(ctx, vs);
    hide Add, Covers;
    AddCovered(ctx.code, vs, ctx.lead.value, at, {0}, [], 3, Blank(ctx.slots), false);
    BeginForm(ctx.code, at, ctx.slots);
    assert ctx.StartList(at)[..|ctx.StartList(at)| - 1] == l.threads;
  }

  lemma {:induction false} CoverIdle(code: Code, vs: set<nat>, lead: seq<nat>, c: Byte, there: Place,
                                     list: seq<Thread>, last: Thread)
    requires Searching(code) && Covers(code, vs, {}, lead) && InCover(code, vs, list) && !Hits(code, lead, c)
    ensures RunThreads(code, Some(c), there, list + [last], {}, []) == RunThreads(code, Some(c), there, [last], {}, [])
    decreases |list|
  {
    hide Add, Hits, Searching;
    if list == [] {
      assert list + [last] == [last];
    } else {
      var t := list[0];
      assert (list + [last])[1..] == list[1..] + [last] && (list + [last])[0] == t;
      assert t.pc in vs && !code[t.pc].Accepts(c);
      CoverIdle(code, vs, lead, c, there, list[1..], last);
    }
  }

  lemma CoverParts(ctx: Setup, vs: set<nat>)
    requires Sound(ctx) && Cover(ctx, vs)
    ensures Searching(ctx.code) && CodeLookAheadFree(ctx.code) && ctx.lead.Some?
            && Covers(ctx.code, vs, {}, ctx.lead.value)
    ensures 3 < |ctx.code|
  {
    hide Covers, CodeLookAheadFree, WellTargeted;
  }

  lemma WaitingParts(ctx: Setup, vs: set<nat>, list: seq<Thread>)
    requires Waiting(ctx, vs, list)
    ensures list != [] && list == list[..|list| - 1] + [Searcher(ctx.slots)]
            && InCover(ctx.code, vs, list[..|list| - 1])
  {
    hide Searcher, InCover;
  }

  /** On a byte that leads nowhere a waiting list becomes the start list of the
      next position. */
  lemma SkipOne(ctx: Setup, vs: set<nat>, list: seq<Thread>, c: Byte, there: Place)
    requires Sound(ctx) && Cover(ctx, vs) && Waiting(ctx, vs, list) && !Hits(ctx.code, ctx.lead.value, c)
    ensures var r := RunThreads(ctx.code, Some(c), there, list, {}, []);
            r.hit.None? && r.threads == ctx.StartList(there)
  {
    hide *;
    CoverParts(ctx, vs);
    WaitingParts(ctx, vs, list);
    var code, n := ctx.code, ctx.slots;
    CoverEntry(ctx, vs);
    StartWaiting(ctx, vs, there);
    CoverIdle(code, vs, ctx.lead.value, c, there, list[..|list| - 1], Searcher(n));
    SearcherRuns(code, c, there, n);
    SearcherAdds(code, there, {}, [], n);
    assert {} + {2, 0} == {0} + {2};
    AddBeside(code, there, {0}, {2}, [], 3, Blank(n), true);
    AddCovered(code, vs, ctx.lead.value, there, {0}, [], 3, Blank(n), true);
  }

  lemma SearcherRuns(code: Code, c: Byte, there: Place, n: nat)
    requires Searching(code)
    ensures RunThreads(code, Some(c), there, [Searcher(n)], {}, []) == Add(code, there, {}, [], 2, Blank(n), true)
  {
    hide Add;
    var r := Add(code, there, {}, [], 2, Blank(n), true);
    assert RunThreads(code, Some(c), there, [], r.visited, r.threads) == Added(r.visited, r.threads, None);
  }

  /* Runs of the machine. */

  lemma SameSteps(code: Code, s: seq<Byte>, full: seq<Byte>, p: nat, list: seq<Thread>)
    requires s <= full && p < |s|
    ensures Step(code, s, p, list) == Step(code, full, p, list) && ByteAt(full, p) == Some(s[p])
  {
  }

  lemma SamePlace(s: seq<Byte>, full: seq<Byte>, p: nat)
    requires s <= full && p <= |s|
    ensures PlaceIn(s, p) == PlaceIn(full, p)
  {
  }

  /** The search from position `p` on is right so far. */
  ghost predicate OnCourse(ctx: Setup, s: seq<Byte>, p: nat, list: seq<Thread>, matched: Option<Hit>) {
    p <= |s| && exists starts, known :: SearchInv(ctx.code, s, ctx.slots, p, list, starts, matched, known)
  }

  lemma OnCourseSteps(ctx: Setup, s: seq<Byte>, p: nat, list: seq<Thread>, matched: Option<Hit>)
    requires Sound(ctx) && OnCourse(ctx, s, p, list, matched) && p < |s| && list != []
    ensures var r := Step(ctx.code, s, p, list); OnCourse(ctx, s, p + 1, r.threads, OrElse(r.hit, matched))
  {
    hide SearchInv, Step, Found, AllBefore;
    var starts, known :| SearchInv(ctx.code, s, ctx.slots, p, list, starts, matched, known);
    var ns, known' := StepKeeps(ctx.code, s, ctx.slots, p, list, starts, matched, known);
  }

  /** The search thread, if it is there, is the last of a list. */
  ghost predicate Ordered(n: nat, list: seq<Thread>) {
    forall k :: 0 <= k < |list| ==> list[k].pc >= 3 || (k == |list| - 1 && list[k] == Searcher(n))
  }

  /** While there is no match the search goes on; after one it is over. */
  lemma OnCourseShape(ctx: Setup, s: seq<Byte>, p: nat, list: seq<Thread>, matched: Option<Hit>)
    requires OnCourse(ctx, s, p, list, matched)
    ensures Ordered(ctx.slots, list)
    ensures matched.None? ==> list != [] && list[|list| - 1] == Searcher(ctx.slots)
    ensures matched.Some? ==> forall k :: 0 <= k < |list| ==> list[k].pc >= 3
  {
    hide Complete, AllBefore, Found, Begun;
    var starts, known :| SearchInv(ctx.code, s, ctx.slots, p, list, starts, matched, known);
    forall k | 0 <= k < |list| ensures starts[k] in starts {}
  }

  /** Waiting lists run over bytes that lead nowhere. */
  lemma {:induction false} SkipMany(ctx: Setup, vs: set<nat>, s: seq<Byte>, p: nat, q: nat, list: seq<Thread>)
    requires Sound(ctx) && Cover(ctx, vs) && Waiting(ctx, vs, list)
    requires p < q <= |s| && forall k :: p <= k < q ==> !Hits(ctx.code, ctx.lead.value, s[k])
    requires OnCourse(ctx, s, p, list, None)
    ensures Scan(ctx.code, s, p, list, None) == Scan(ctx.code, s, q, ctx.StartList(PlaceIn(s, q)), None)
    ensures OnCourse(ctx, s, q, ctx.StartList(PlaceIn(s, q)), None)
    decreases q - p
  {
    hide Sound, Cover, OnCourse, RunThreads, PlaceIn, Setup.StartList;
    OnCourseSteps(ctx, s, p, list, None);
    SkipOne(ctx, vs, list, s[p], PlaceIn(s, p + 1));
    if p + 1 < q {
      StartWaiting(ctx, vs, PlaceIn(s, p + 1));
      SkipMany(ctx, vs, s, p + 1, q, ctx.StartList(PlaceIn(s, p + 1)));
    }
  }

  /** A waiting list finds nothing at the end of the stream. */
  lemma {:induction false} EndIdle(code: Code, there: Place, list: seq<Thread>)
    requires forall k :: 0 <= k < |list| && list[k].pc < |code| ==> !code[list[k].pc].Match?
    ensures RunThreads(code, None, there, list, {}, []).hit.None?
    decreases |list|
  {
    if list != [] { EndIdle(code, there, list[1..]); }
  }

  lemma WaitingEnds(ctx: Setup, vs: set<nat>, s: seq<Byte>, list: seq<Thread>)
    requires Sound(ctx) && Cover(ctx, vs) && Waiting(ctx, vs, list)
    ensures Scan(ctx.code, s, |s|, list, None) == None
  {
    hide Cover, RunThreads;
    EndIdle(ctx.code, PlaceIn(s, |s| + 1), list) by {
      forall k | 0 <= k < |list| && list[k].pc < |ctx.code| ensures !ctx.code[list[k].pc].Match? {
        if k < |list| - 1 { assert list[..|list| - 1][k] == list[k]; }
      }
    }
  }
}
