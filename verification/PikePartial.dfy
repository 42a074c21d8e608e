/** The range reported while more input is wanted
    (src/sregex/sre_vm_pike.c:692-735): no later match starts before it, so what
    lies before it can be thrown away. */
module PikePartial {
  import opened Regexes
  import opened Chunks
  import opened Bytecode
  import opened Compiler
  import opened Programs
  import opened Thompson
  import opened ThompsonMatching
  import opened PikeMachine
  import opened LeadingBytes
  import opened PikeStream
  import opened PikeLeftmost
  import opened PikeSkip
  import opened PikeLate
  import opened PikeChunks
  import opened PikeSkipExact
  import opened Windows

  /** `b` is where some thread of the list has some regex start. */
  ghost predicate SomeStart(list: seq<Thread>, ncaps: seq<nat>, b: int) {
    exists t: nat, i: nat :: StartsAt(list, ncaps, t, i, b)
  }

  ghost predicate StartsAt(list: seq<Thread>, ncaps: seq<nat>, t: nat, i: nat, b: int) {
    t < |list| && i < |ncaps| && 2 * Base(ncaps, i) < |list[t].vec| && list[t].vec[2 * Base(ncaps, i)] == b
  }

  /** The least start on the list, -1 when there is none. */
  ghost predicate LeastStart(list: seq<Thread>, ncaps: seq<nat>, lo: int) {
    && (lo != -1 ==> SomeStart(list, ncaps, lo))
    && forall t: nat, i: nat, b: int :: StartsAt(list, ncaps, t, i, b) && b != -1 ==> lo != -1 && lo <= b
  }

  /** The same for the threads and windows seen so far. */
  ghost predicate LeastSoFar(list: seq<Thread>, ncaps: seq<nat>, lo: int, ts: nat, rs: nat) {
    && (lo != -1 ==> SomeStart(list, ncaps, lo))
    && forall t: nat, i: nat, b: int ::
         StartsAt(list, ncaps, t, i, b) && (t < ts || (t == ts && i < rs)) && b != -1 ==> lo != -1 && lo <= b
  }

  /** The greatest value in slot 1, whatever the regex: the second loop variable is
      not offset. */
  ghost predicate GreatestSlot1(list: seq<Thread>, hi: int, ts: nat) {
    && (hi != -1 ==> exists t :: 0 <= t < ts <= |list| && |list[t].vec| > 1 && list[t].vec[1] == hi)
    && forall t :: 0 <= t < ts && t < |list| && |list[t].vec| > 1 && list[t].vec[1] != -1 ==>
    hi != -1 && list[t].vec[1] <= hi
  }

  lemma StartSeen(list: seq<Thread>, ncaps: seq<nat>, lo: int, lo': int, t: nat, i: nat)
    requires t < |list| && i < |ncaps| && 2 * Base(ncaps, i) < |list[t].vec|
    requires LeastSoFar(list, ncaps, lo, t, i)
    requires var b := list[t].vec[2 * Base(ncaps, i)]; lo' == if b != -1 && (lo == -1 || b < lo) then b else lo
    ensures LeastSoFar(list, ncaps, lo', t, i + 1)
  {
    hide Base;
    var b := list[t].vec[2 * Base(ncaps, i)];
    assert StartsAt(list, ncaps, t, i, b);
    forall t': nat, i': nat, b': int | StartsAt(list, ncaps, t', i', b') && (t' < t || (t' == t && i' < i + 1))
        && b' != -1
      ensures lo' != -1 && lo' <= b'
    {
      if t' == t && i' == i { assert b' == b; }
    }
  }

  lemma ThreadSeen(list: seq<Thread>, ncaps: seq<nat>, lo: int, t: nat)
    requires t < |list| && LeastSoFar(list, ncaps, lo, t, |ncaps|)
    ensures LeastSoFar(list, ncaps, lo, t + 1, 0)
  {
    hide Base;
  }

  lemma Slot1Seen(list: seq<Thread>, hi: int, hi': int, t: nat)
    requires t < |list| && |list[t].vec| > 1 && GreatestSlot1(list, hi, t)
    requires hi' == if list[t].vec[1] != -1 && (hi == -1 || list[t].vec[1] > hi) then list[t].vec[1] else hi
    ensures GreatestSlot1(list, hi', t + 1)
  {
  }

  lemma ProgramParts(code: Code, bs: seq<Branch>)
    requires ProgramOf(code, bs)
    ensures |bs| > 0 && AllWellFormed(bs) && Layout(code, 3, Chain(bs)) && |code| == 3 + ProgramLen(Chain(bs))
  {
    hide Layout, ProgramLen;
    ProgramSearches(code, bs);
  }

  lemma TaggedRun(code: Code, s: seq<Byte>, n: nat, p: nat, t: Thread, start: nat) returns (steps: nat)
    requires Tagged(code, s, n, p, t, start)
    ensures Run(code, s, 3, |code|, Conf(3, start, Blank(n)), Conf(t.pc, p, t.vec), steps)
    ensures 3 <= t.pc < |code| && Rests(code, Conf(t.pc, p, t.vec))
  {
    hide Run;
    steps :| Run(code, s, 3, |code|, Conf(3, start, Blank(n)), Conf(t.pc, p, t.vec), steps);
  }

  lemma OwnsStart(bs: seq<Branch>, ncaps: seq<nat>, list: seq<Thread>, k: nat, id: nat, n: nat, start: nat)
    requires WindowsFit(bs, n) && Numbered(bs, ncaps) && k < |list| && id < |bs|
             && Owned(Blank(n), list[k].vec, bs[id], start)
    ensures StartsAt(list, ncaps, k, id, start)
  {
    hide Base;
  }

  /** A thread behind the search loop carries its start in the window of its regex. */
  lemma ThreadStart(code: Code, bs: seq<Branch>, ncaps: seq<nat>, s: seq<Byte>, n: nat, p: nat, list: seq<Thread>,
                    k: nat, start: nat)
    requires ProgramOf(code, bs) && WindowsFit(bs, n) && Numbered(bs, ncaps)
    requires k < |list| && Tagged(code, s, n, p, list[k], start)
    ensures exists id: nat :: StartsAt(list, ncaps, k, id, start)
  {
    hide *;
    var t := list[k];
    ProgramParts(code, bs);
    var steps := TaggedRun(code, s, n, p, t, start);
    var id := ChainOwns(code, s, 3, bs, Conf(3, start, Blank(n)), Conf(t.pc, p, t.vec), steps);
    OwnsStart(bs, ncaps, list, k, id, n, start);
  }

  lemma BlankStarts(list: seq<Thread>, ncaps: seq<nat>, t: nat, i: nat, b: int, n: nat)
    requires StartsAt(list, ncaps, t, i, b) && list[t] == Searcher(n)
    ensures b == -1
  {
    hide Base;
  }

  /** What the machine still may report lies behind the reported start, or, when
      none is reported, behind everything it has processed. */
  function Bound(lo: int, p: nat): nat {
    if lo == -1 then p else if lo < 0 then 0 else lo
  }

  lemma StartBound(code: Code, bs: seq<Branch>, ncaps: seq<nat>, s: seq<Byte>, n: nat, p: nat, list: seq<Thread>,
                   starts: seq<nat>, lo: int, k: nat)
    requires ProgramOf(code, bs) && WindowsFit(bs, n) && Numbered(bs, ncaps)
    requires Tracked(code, s, n, p, list, starts) && LeastStart(list, ncaps, lo) && k < |list|
    ensures |starts| == |list| && Bound(lo, p) <= starts[k]
    ensures list[k] != Searcher(n) || starts[k] != p + 1 ==> lo != -1
  {
    hide ProgramOf, WindowsFit, Numbered, Base, Tagged;
    if Tagged(code, s, n, p, list[k], starts[k]) {
      ThreadStart(code, bs, ncaps, s, n, p, list, k, starts[k]);
    } else if lo != -1 {
      var t: nat, i: nat :| StartsAt(list, ncaps, t, i, lo);
      if list[t] == Searcher(n) { BlankStarts(list, ncaps, t, i, lo, n); }
      ThreadStart(code, bs, ncaps, s, n, p, list, t, starts[t]);
      TaggedBehind(code, s, n, p, list[t], starts[t]);
    }
  }

  lemma TaggedBehind(code: Code, s: seq<Byte>, n: nat, p: nat, t: Thread, start: nat)
    requires Tagged(code, s, n, p, t, start)
    ensures start <= p
  {
  }

  lemma NothingBelow(code: Code, bs: seq<Branch>, ncaps: seq<nat>, s: seq<Byte>, n: nat, p: nat, list: seq<Thread>,
                     starts: seq<nat>,
                     matched: Option<Hit>, known: Option<nat>, lo: int)
    requires ProgramOf(code, bs) && WindowsFit(bs, n) && Numbered(bs, ncaps)
    requires SearchInv(code, s, n, p, list, starts, matched, known) && LeastStart(list, ncaps, lo)
    requires matched.Some? ==> list != []
    ensures NoneBelow(starts, known, Bound(lo, p))
  {
    hide ProgramOf, WindowsFit, Numbered, Base, Tracked, Complete, AllBefore, Found, LeastStart, Bound;
    TrackedLength(code, s, n, p, list, starts);
    forall k | 0 <= k < |list| ensures Bound(lo, p) <= starts[k] {
      StartBound(code, bs, ncaps, s, n, p, list, starts, lo, k);
    }
    if known.Some? { assert starts[0] in starts; }
  }

  /** The calls for chunks that are not the last. */
  function Feeds(ctx: Setup, done: seq<Byte>, chunks: seq<seq<Byte>>, m: Machine): Verdict
    requires m.pos == |done|
    decreases |chunks|
  {
    if chunks == [] then Again(m)
    else
      var s := done + chunks[0];
      match ctx.Exec(s, false, m)
      case Again(m') => if m'.pos == |s| then Feeds(ctx, s, chunks[1..], m') else Again(m')
      case verdict => verdict
  }

  lemma {:induction false} FeedsSure(ctx: Setup, done: seq<Byte>, chunks: seq<seq<Byte>>, m: Machine, rest: seq<Byte>,
                                     answer: Option<Hit>)
    requires Sound(ctx) && m.pos == |done| && Sure(ctx, done + Joined(chunks) + rest, m, answer)
    requires m.matched.Some? ==> m.list != []
    ensures var v := Feeds(ctx, done, chunks, m);
            v.Again? ==> v.machine.pos == |done| + |Joined(chunks)|
                         && Sure(ctx, done + Joined(chunks) + rest, v.machine, answer)
                         && (v.machine.matched.Some? ==> v.machine.list != [])
    decreases |chunks|
  {
    hide Sound, Sure, Settled, Setup.Exec;
    if chunks != [] {
      var s, full := done + chunks[0], done + Joined(chunks) + rest;
      assert full == s + Joined(chunks[1..]) + rest;
      ExecSure(ctx, s, false, m, full, answer);
      if ctx.Exec(s, false, m).Again? {
        AgainOpen(ctx, s, m);
        FeedsSure(ctx, s, chunks[1..], ctx.Exec(s, false, m).machine, rest, answer);
      }
    }
  }

  lemma AgainOpen(ctx: Setup, s: seq<Byte>, m: Machine)
    requires m.pos <= |s| && ctx.Exec(s, false, m).Again?
    ensures ctx.Exec(s, false, m).machine.matched.Some? ==> ctx.Exec(s, false, m).machine.list != []
  {
    hide Setup.Feed;
  }

  lemma ValueBound(ctx: Setup, bs: seq<Branch>, ncaps: seq<nat>, s: seq<Byte>, m: Machine, lo: int)
    requires Sound(ctx) && ProgramOf(ctx.code, bs) && WindowsFit(bs, ctx.slots) && Numbered(bs, ncaps)
    requires OnCourse(ctx, s, m.pos, m.list, m.matched) && LeastStart(m.list, ncaps, lo)
             && (m.matched.Some? ==> m.list != [])
    ensures var v := Value(ctx, s, m);
            v.Some? ==> v.value.id < |bs| && 2 * bs[v.value.id].group + 1 < |v.value.vec|
                        && StartOf(bs, v.value) >= if lo == -1 then m.pos else lo
  {
    hide ProgramOf, Searching, WellTargeted, CodeLookAheadFree, WindowsFit, Numbered, SearchInv, LeastStart, LeadsAll;
    hide Found, AllBefore, NoneBelow, Scan, StartOf, EndOf, Matches;
    var code, n := ctx.code, ctx.slots;
    var starts, known :| SearchInv(code, s, n, m.pos, m.list, starts, m.matched, known);
    NothingBelow(code, bs, ncaps, s, n, m.pos, m.list, starts, m.matched, known, lo);
    var best := SearchLeftmost(code, s, n, m.pos, m.list, starts, m.matched, known);
    var answer := Value(ctx, s, m);
    if answer.Some? { FoundMatches(code, bs, s, n, best.value, answer.value); }
  }

  lemma FeedsFromFresh(ctx: Setup, before: seq<seq<Byte>>, rest: seq<Byte>, m: Machine)
    requires Sound(ctx) && Feeds(ctx, [], before, ctx.Fresh()) == Again(m)
    ensures m.pos == |Joined(before)| && (m.matched.Some? ==> m.list != [])
    ensures var s := Joined(before) + rest; Sure(ctx, s, m, Answer(ctx.code, s, ctx.slots))
  {
    FreshUnmatched(ctx);
    hide *;
    var s := Joined(before) + rest;
    assert [] + Joined(before) + rest == s;
    FreshRunning(ctx, s);
    RunningSure(ctx, s, ctx.Fresh());
    FeedsSure(ctx, [], before, ctx.Fresh(), rest, Answer(ctx.code, s, ctx.slots));
  }

  lemma FreshUnmatched(ctx: Setup)
    ensures ctx.Fresh().matched.None? && ctx.Fresh().pos == 0
  {
  }

  /** The theorem: whatever follows, a match reported later starts no earlier than
      the start reported now, or, when that is -1, than what was processed. */
  lemma LaterMatchesStartLater(code: Code, bs: seq<Branch>, ncaps: seq<nat>, n: nat, before: seq<seq<Byte>>,
                               after: seq<seq<Byte>>, m: Machine, lo: int)
    requires ProgramOf(code, bs) && BranchesLookAheadFree(bs) && WindowsFit(bs, n) && Numbered(bs, ncaps)
    requires SkipSafe(SetupOf(code, n))
    requires Feeds(SetupOf(code, n), [], before, SetupOf(code, n).Fresh()) == Again(m) && LeastStart(m.list, ncaps, lo)
    requires after != []
    ensures m.pos == |Joined(before)|
    ensures var v := Calls(SetupOf(code, n), Joined(before), after, m);
            v.Matched? ==> v.hit.id < |bs| && 2 * bs[v.hit.id].group + 1 < |v.hit.vec|
                           && StartOf(bs, v.hit) >= if lo == -1 then m.pos else lo
  {
    hide *;
    var ctx := SetupOf(code, n);
    SetupSound(code, bs, n);
    SetupIs(code, n);
    var s := Joined(before) + Joined(after);
    var answer := Answer(code, s, n);
    FeedsFromFresh(ctx, before, Joined(after), m);
    CallsSure(ctx, Joined(before), after, m, answer);
    SureRuns(ctx, s, m, answer);
    SettledSafe(ctx, s, Calls(ctx, Joined(before), after, m), answer);
    ValueBound(ctx, bs, ncaps, s, m, lo);
  }

  lemma SettledSafe(ctx: Setup, s: seq<Byte>, v: Verdict, answer: Option<Hit>)
    requires SkipSafe(ctx) && (v.Matched? ==> Settled(ctx, s, Some(v.hit), answer))
    ensures v.Matched? ==> answer == Some(v.hit)
  {
    hide SkipSafe, Real;
  }

  /* The other half. */

  /** What a caller may rely on when it keeps only the range reported after `before`. */
  ghost predicate Discards(ctx: Setup, bs: seq<Branch>, ncaps: seq<nat>, before: seq<seq<Byte>>,
                           after: seq<seq<Byte>>, m: Machine, lo: int) {
    Feeds(ctx, [], before, ctx.Fresh()) == Again(m) && LeastStart(m.list, ncaps, lo) && after != [] ==>
      m.pos == |Joined(before)| && StartsBehind(bs, Calls(ctx, Joined(before), after, m), m.pos, lo)
  }

  ghost predicate StartsBehind(bs: seq<Branch>, v: Verdict, p: nat, lo: int) {
    v.Matched? ==> v.hit.id < |bs| && 2 * bs[v.hit.id].group + 1 < |v.hit.vec|
                   && StartOf(bs, v.hit) >= if lo == -1 then p else lo
  }

  /** There is always a least start. */
  lemma LeastExists(list: seq<Thread>, ncaps: seq<nat>) returns (lo: int)
    requires forall t: nat, i: nat :: t < |list| && i < |ncaps| ==> 2 * Base(ncaps, i) < |list[t].vec|
    ensures LeastStart(list, ncaps, lo)
  {
    hide Base, StartsAt;
    lo := -1;
    var t := 0;
    while t < |list|
      invariant 0 <= t <= |list| && LeastSoFar(list, ncaps, lo, t, 0)
    {
      var i := 0;
      while i < |ncaps|
        invariant 0 <= i <= |ncaps| && LeastSoFar(list, ncaps, lo, t, i)
      {
        var b := list[t].vec[2 * Base(ncaps, i)];
        var lo' := if b != -1 && (lo == -1 || b < lo) then b else lo;
        StartSeen(list, ncaps, lo, lo', t, i);
        lo, i := lo', i + 1;
      }
      ThreadSeen(list, ncaps, lo, t);
      t := t + 1;
    }
    LeastAll(list, ncaps, lo);
  }

  lemma LeastAll(list: seq<Thread>, ncaps: seq<nat>, lo: int)
    requires LeastSoFar(list, ncaps, lo, |list|, 0)
    ensures LeastStart(list, ncaps, lo)
  {
    hide Base;
    forall t: nat, i: nat, b: int | StartsAt(list, ncaps, t, i, b) && b != -1 ensures lo != -1 && lo <= b {
      assert t < |list|;
    }
  }

  /** The starts a list shows are those of its threads. */
  lemma ShownStart(code: Code, bs: seq<Branch>, ncaps: seq<nat>, s: seq<Byte>, n: nat, p: nat, list: seq<Thread>,
                   t: nat, i: nat, b: int, start: nat)
    requires ProgramOf(code, bs) && WindowsFit(bs, n) && Numbered(bs, ncaps) && |bs| == |ncaps|
    requires t < |list| && Tagged(code, s, n, p, list[t], start) && StartsAt(list, ncaps, t, i, b)
    ensures b == -1 || b == start
  {
    hide *;
    ProgramParts(code, bs);
    var steps := TaggedRun(code, s, n, p, list[t], start);
    var id := ChainOwns(code, s, 3, bs, Conf(3, start, Blank(n)), Conf(list[t].pc, p, list[t].vec), steps);
    OtherWindows(bs, ncaps, n, list, t, i, b, id, start);
  }

  lemma OtherWindows(bs: seq<Branch>, ncaps: seq<nat>, n: nat, list: seq<Thread>, t: nat, i: nat, b: int, id: nat,
                     start: nat)
    requires WindowsFit(bs, n) && Numbered(bs, ncaps) && |bs| == |ncaps| && id < |bs|
    requires t < |list| && Owned(Blank(n), list[t].vec, bs[id], start) && StartsAt(list, ncaps, t, i, b)
    ensures b == -1 || b == start
  {
    hide Base;
    if i != id { WindowApart(bs, ncaps, i, id); }
  }

  lemma WindowApart(bs: seq<Branch>, ncaps: seq<nat>, i: nat, id: nat)
    requires Numbered(bs, ncaps) && |bs| == |ncaps| && i < |bs| && id < |bs| && i != id
    ensures Outside(bs[id], 2 * Base(ncaps, i))
  {
    hide Base;
    if i < id { BaseGrows(ncaps, i, id); } else { BaseGrows(ncaps, id, i); }
  }

  /** The probe of an unsafe program, cut before its last byte. */
  function Cut(x: Byte, c: Byte): (s: seq<Byte>)
    ensures s <= Probe(x, c) && |s| == 3
  {
    [x, c, x]
  }

  lemma CutJump(ctx: Setup, vs: set<nat>, x: Byte, c: Byte, p: nat, m: Machine)
    requires Sound(ctx) && Cover(ctx, vs) && !Hits(ctx.code, ctx.lead.value, x) && AfterSkip(ctx, x, c).hit.Some?
    requires p == 0 || p == 2
    requires m.pos == p && m.seen && ctx.LooksInitial(m.list)
    ensures ctx.Jump(Cut(x, c), m) == Machine(p + 1, ctx.StartList(PlaceIn(Cut(x, c), p + 1)), m.matched, true)
  {
    hide Sound, Cover, Hits, AfterSkip, Setup.LooksInitial, Setup.StartList, PlaceIn;
    ProbeHits(ctx, vs, x, c);
    LeadGiven(ctx, vs);
    assert ctx.FirstByte(Cut(x, c), p) == p + 1;
  }

  lemma LeadGiven(ctx: Setup, vs: set<nat>)
    requires Cover(ctx, vs)
    ensures ctx.lead.Some?
  {
  }

  lemma FeedStops(ctx: Setup, s: seq<Byte>, m: Machine, j: Machine)
    requires m.pos < |s| && m.list != [] && j == ctx.Jump(s, m) && j.pos == |s|
    ensures ctx.Feed(s, false, m) == j
  {
    hide Setup.Jump, Setup.Advance;
  }

  lemma EndHit(code: Code, s: seq<Byte>, list: seq<Thread>)
    requires list != [] && Scan(code, s, |s|, list, None) == None
    ensures Step(code, s, |s|, list).hit.None?
  {
    hide Step;
  }

  /** What an unsafe program does with the cut probe: it wants more with a list that
      starts at 3, and reports a match that starts at 1 or 2 when nothing follows. */
  lemma CutVerdicts(ctx: Setup, vs: set<nat>, x: Byte, c: Byte) returns (early: Hit, m: Machine)
    requires Sound(ctx) && Cover(ctx, vs) && !Hits(ctx.code, ctx.lead.value, x) && AfterSkip(ctx, x, c).hit.Some?
    requires ctx.LooksInitial(AfterSkip(ctx, x, c).threads)
    ensures LateHit(ctx, Cut(x, c), early, 1, 2) && m.pos == 3 && Late(ctx, Cut(x, c), 3, m.list, 3, 4)
    ensures ctx.Exec(Cut(x, c), false, ctx.Fresh()) == Again(m) && ctx.Exec(Cut(x, c), true, m) == Matched(early)
  {
    hide Sound, Cover, Hits, Late, LateHit, Setup.StartList, Setup.LooksInitial, Step, PlaceIn, Alike, AfterSkip, Cut,
        Probe;
    hide Setup.Jump, Setup.Feed, Setup.Advance;
    var s, m0 := Cut(x, c), ctx.Fresh();
    InitialLooks(ctx);
    ProbeStep(ctx, vs, x, c, 0, m0);
    CutJump(ctx, vs, x, c, 0, m0);
    SamePlace(s, Probe(x, c), 1);
    LooksNotEmpty(ctx, vs, m0.list);
    var j1 := ctx.Jump(s, m0);
    SameSteps(ctx.code, s, Probe(x, c), 1, j1.list);
    var r1 := Step(ctx.code, s, 1, j1.list);
    FeedOne(ctx, s, false, m0, j1);
    AdvanceIs(ctx, s, j1);
    AlikeInitial(ctx, r1.threads, AfterSkip(ctx, x, c).threads);
    var m2 := Machine(2, r1.threads, r1.hit, true);
    CutJump(ctx, vs, x, c, 2, m2);
    LooksNotEmpty(ctx, vs, m2.list);
    m := ctx.Jump(s, m2);
    FeedStops(ctx, s, m2, m);
    StartTraced(ctx, vs, s, 3);
    StartWaiting(ctx, vs, PlaceIn(s, 3));
    WaitingEnds(ctx, vs, s, m.list);
    EndHit(ctx.code, s, m.list);
    FeedLast(ctx, s, m);
    StartLate(ctx, vs, s, 1);
    LateStep(ctx, s, 1, j1.list, 1, 2);
    StartLate(ctx, vs, s, 3);
    early := r1.hit.value;
  }

  /** A list that starts at 3 or later shows no earlier start. */
  lemma LateLeast(code: Code, bs: seq<Branch>, ncaps: seq<nat>, s: seq<Byte>, n: nat, p: nat, list: seq<Thread>,
                  low: nat, high: nat) returns (lo: int)
    requires ProgramOf(code, bs) && WindowsFit(bs, n) && Numbered(bs, ncaps)
    requires exists starts :: Tracked(code, s, n, p, list, starts) && forall x :: x in starts ==> low <= x <= high
    ensures LeastStart(list, ncaps, lo) && (lo == -1 || lo >= low)
  {
    hide ProgramOf, WindowsFit, Numbered, Base, Tagged, LeastStart, SomeStart, StartsAt;
    var starts :| Tracked(code, s, n, p, list, starts) && forall x :: x in starts ==> low <= x <= high;
    forall t: nat, i: nat | t < |list| && i < |ncaps| ensures 2 * Base(ncaps, i) < |list[t].vec| {
      BaseFits(bs, ncaps, n, i);
      if Tagged(code, s, n, p, list[t], starts[t]) { TaggedSize(code, s, n, p, list[t], starts[t]); }
    }
    NumberedLength(bs, ncaps);
    lo := LeastExists(list, ncaps);
    if lo != -1 {
      var t, i := LeastAt(list, ncaps, lo);
      if Tagged(code, s, n, p, list[t], starts[t]) {
        ShownStart(code, bs, ncaps, s, n, p, list, t, i, lo, starts[t]);
        assert starts[t] in starts;
      } else {
        BlankStarts(list, ncaps, t, i, lo, n);
      }
    }
  }

  lemma LeastAt(list: seq<Thread>, ncaps: seq<nat>, lo: int) returns (t: nat, i: nat)
    requires LeastStart(list, ncaps, lo) && lo != -1
    ensures t < |list| && StartsAt(list, ncaps, t, i, lo)
  {
    hide Base;
    t, i :| StartsAt(list, ncaps, t, i, lo);
  }

  lemma NumberedLength(bs: seq<Branch>, ncaps: seq<nat>)
    requires Numbered(bs, ncaps)
    ensures |bs| == |ncaps|
  {
  }

  lemma BaseFits(bs: seq<Branch>, ncaps: seq<nat>, n: nat, i: nat)
    requires Numbered(bs, ncaps) && WindowsFit(bs, n) && i < |ncaps|
    ensures 2 * Base(ncaps, i) + 1 < n && |Searcher(n).vec| == n && |bs| == |ncaps|
  {
    hide Base;
    assert bs[i].group == Base(ncaps, i);
  }

  lemma TaggedSize(code: Code, s: seq<Byte>, n: nat, p: nat, t: Thread, start: nat)
    requires Tagged(code, s, n, p, t, start)
    ensures |t.vec| == n
  {
    hide Run;
    var steps := TaggedRun(code, s, n, p, t, start);
    RunBounds(code, s, 3, |code|, Conf(3, start, Blank(n)), Conf(t.pc, p, t.vec), steps);
  }

  lemma UnsafeDiscards(code: Code, bs: seq<Branch>, ncaps: seq<nat>, n: nat)
      returns (before: seq<seq<Byte>>, after: seq<seq<Byte>>, m: Machine, lo: int)
    requires ProgramOf(code, bs) && BranchesLookAheadFree(bs) && WindowsFit(bs, n) && Numbered(bs, ncaps)
             && !SkipSafe(SetupOf(code, n))
    ensures !Discards(SetupOf(code, n), bs, ncaps, before, after, m, lo)
  {
    hide ProgramOf, BranchesLookAheadFree, Sound, Cover, Hits, Answer, Setup.Exec, Setup.LooksInitial, Found, Matches,
        AfterSkip, LeadingOf;
    hide Tracked, LeastStart, Base, Cut, WindowsFit, Numbered;
    var ctx := SetupOf(code, n);
    SetupSound(code, bs, n);
    var vs := SoundCover(ctx);
    var x: Byte, c: Byte :| !Hits(code, ctx.lead.value, x) && AfterSkip(ctx, x, c).hit.Some?
        && SameButLast(AfterSkip(ctx, x, c).threads, Begin(code, Place(0, true, true), n).threads);
    LooksInitialIs(ctx, AfterSkip(ctx, x, c).threads);
    var s := Cut(x, c);
    var early, m' := CutVerdicts(ctx, vs, x, c);
    m := m';
    var i: nat :| i <= 2 && Found(code, s, n, i, early);
    FoundMatches(code, bs, s, n, i, early);
    lo := LateLeast(code, bs, ncaps, s, n, 3, m.list, 3, 4);
    before, after := [s], [[]];
    OneFeed(ctx, s, m, early);
  }

  lemma OneFeed(ctx: Setup, s: seq<Byte>, m: Machine, h: Hit)
    requires ctx.Exec(s, false, ctx.Fresh()) == Again(m) && m.pos == |s| && ctx.Exec(s, true, m) == Matched(h)
    ensures ctx.Fresh().pos == 0 && Joined([s]) == s && Feeds(ctx, [], [s], ctx.Fresh()) == Again(m)
            && Calls(ctx, s, [[]], m) == Matched(h)
  {
    hide Setup.Exec;
    assert [] + s == s && s + [] == s;
  }

  /** The theorem: the range reported when more input is wanted is safe to discard
      by, after any chunks and whatever follows, if and only if the program is
      SkipSafe. */
  lemma DiscardExactly(code: Code, bs: seq<Branch>, ncaps: seq<nat>, n: nat)
    requires ProgramOf(code, bs) && BranchesLookAheadFree(bs) && WindowsFit(bs, n) && Numbered(bs, ncaps)
    ensures var ctx := SetupOf(code, n);
            SkipSafe(ctx) <==> forall before: seq<seq<Byte>>, after: seq<seq<Byte>>, m: Machine, lo: int ::
                Discards(ctx, bs, ncaps, before, after, m, lo)
  {
    hide ProgramOf, BranchesLookAheadFree, WindowsFit, Numbered, SkipSafe, SetupOf, LeastStart, Calls, Feeds,
        Setup.Fresh, StartOf;
    var ctx := SetupOf(code, n);
    SetupIs(code, n);
    if SkipSafe(ctx) {
      forall before: seq<seq<Byte>>, after: seq<seq<Byte>>, m: Machine, lo: int
        ensures Discards(ctx, bs, ncaps, before, after, m, lo) {
        if Feeds(ctx, [], before, ctx.Fresh()) == Again(m) && LeastStart(m.list, ncaps, lo) && after != [] {
          LaterMatchesStartLater(code, bs, ncaps, n, before, after, m, lo);
        }
      }
    } else {
      var before, after, m, lo := UnsafeDiscards(code, bs, ncaps, n);
    }
  }
}
