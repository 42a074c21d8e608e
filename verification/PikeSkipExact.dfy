/** The jump to the next leading byte is invisible exactly for the programs that
    are SkipSafe. */
module PikeSkipExact {
  import opened Regexes
  import opened Chunks
  import opened Bytecode
  import opened Programs
  import opened Thompson
  import opened ThompsonMatching
  import opened PikeMachine
  import opened LeadingBytes
  import opened PikeStream
  import opened PikeLeftmost
  import opened PikeSkip
  import opened PikeLate
  import opened PikeChunks

  /** The stream on which an unsafe program gives itself away. */
  function Probe(x: Byte, c: Byte): seq<Byte> {
    [x, c, x, c]
  }

  /** A jump over one byte, and the step after it. */
  lemma ProbeStep(ctx: Setup, vs: set<nat>, x: Byte, c: Byte, p: nat, m: Machine)
    requires Sound(ctx) && Cover(ctx, vs) && !Hits(ctx.code, ctx.lead.value, x) && AfterSkip(ctx, x, c).hit.Some?
    requires p == 0 || p == 2
    requires m.pos == p && m.seen && ctx.LooksInitial(m.list)
    ensures var s := Probe(x, c);
            && ctx.Jump(s, m) == Machine(p + 1, ctx.StartList(PlaceIn(s, p + 1)), m.matched, true)
            && (var r := Step(ctx.code, s, p + 1, ctx.StartList(PlaceIn(s, p + 1)));
                r.hit.Some? && Alike(r.threads, AfterSkip(ctx, x, c).threads))
  {
    var s := Probe(x, c);
    ProbeHits(ctx, vs, x, c);
    hide Sound, Cover, Hits, Add, RunThreads, Setup.LooksInitial;
    assert ctx.FirstByte(s, p) == p + 1;
    var here, there := PlaceIn(s, p + 1), PlaceIn(s, p + 2);
    var here', there' := Place(1, false, x == NEWLINE), Place(2, false, c == NEWLINE);
    AddAlike(ctx.code, here, here', {}, [], [], 0, Blank(ctx.slots), Blank(ctx.slots), false);
    RunAlike(ctx.code, Some(c), there, there', ctx.StartList(here), ctx.StartList(here'), {}, [], []);
  }

  lemma ProbeHits(ctx: Setup, vs: set<nat>, x: Byte, c: Byte)
    requires Sound(ctx) && Cover(ctx, vs) && AfterSkip(ctx, x, c).hit.Some?
    ensures Hits(ctx.code, ctx.lead.value, c)
  {
    if !Hits(ctx.code, ctx.lead.value, c) {
      hide Sound, Cover, Hits, RunThreads, Setup.StartList;
      StartWaiting(ctx, vs, Place(1, false, x == NEWLINE));
      SkipOne(ctx, vs, ctx.StartList(Place(1, false, x == NEWLINE)), c, Place(2, false, c == NEWLINE));
    }
  }

  lemma AlikeInitial(ctx: Setup, list: seq<Thread>, list': seq<Thread>)
    requires Alike(list, list') && ctx.LooksInitial(list')
    ensures ctx.LooksInitial(list)
  {
    hide Setup.Initial;
  }

  lemma LooksNotEmpty(ctx: Setup, vs: set<nat>, list: seq<Thread>)
    requires Sound(ctx) && Cover(ctx, vs) && ctx.LooksInitial(list)
    ensures list != []
  {
    hide Sound, Cover;
    StartWaiting(ctx, vs, Place(0, true, true));
  }

  lemma FeedOne(ctx: Setup, s: seq<Byte>, eof: bool, m: Machine, j: Machine)
    requires m.pos < |s| && m.list != [] && j == ctx.Jump(s, m) && j.pos < |s|
    ensures ctx.Feed(s, eof, m) == ctx.Feed(s, eof, ctx.Advance(s, j))
  {
    hide Setup.Jump, Setup.Advance;
  }

  lemma FeedLast(ctx: Setup, s: seq<Byte>, m: Machine)
    requires m.pos == |s| && m.list != []
    ensures ctx.Feed(s, true, m).matched == OrElse(Step(ctx.code, s, |s|, m.list).hit, m.matched)
  {
    hide Step;
  }

  lemma AdvanceIs(ctx: Setup, s: seq<Byte>, m: Machine)
    requires m.pos < |s| && m.seen && Step(ctx.code, s, m.pos, m.list).hit.Some?
    ensures var r := Step(ctx.code, s, m.pos, m.list); ctx.Advance(s, m) == Machine(m.pos + 1, r.threads, r.hit, true)
  {
    hide Step;
  }

  /** What an unsafe program answers for the probe is a match that starts at 3 or
      later, although one that starts at 1 or 2 exists. */
  lemma ProbeAnswer(ctx: Setup, vs: set<nat>, x: Byte, c: Byte) returns (early: Hit, late: Hit)
    requires Sound(ctx) && Cover(ctx, vs) && !Hits(ctx.code, ctx.lead.value, x) && AfterSkip(ctx, x, c).hit.Some?
    requires ctx.LooksInitial(AfterSkip(ctx, x, c).threads)
    ensures LateHit(ctx, Probe(x, c), early, 1, 2) && LateHit(ctx, Probe(x, c), late, 3, 9)
    ensures ctx.Exec(Probe(x, c), true, ctx.Fresh()) == Matched(late)
  {
    var s := Probe(x, c);
    hide Sound, Cover, Hits, Late, LateHit, Setup.StartList, Setup.LooksInitial, Step, PlaceIn, Alike, AfterSkip;
    hide Setup.Jump, Setup.Feed, Setup.Advance;
    var m0 := ctx.Fresh();
    InitialLooks(ctx);
    ProbeStep(ctx, vs, x, c, 0, m0);
    LooksNotEmpty(ctx, vs, m0.list);
    var j1 := ctx.Jump(s, m0);
    var r1 := Step(ctx.code, s, 1, j1.list);
    FeedOne(ctx, s, true, m0, j1);
    AdvanceIs(ctx, s, j1);
    AlikeInitial(ctx, r1.threads, AfterSkip(ctx, x, c).threads);
    var m2 := Machine(2, r1.threads, r1.hit, true);
    ProbeStep(ctx, vs, x, c, 2, m2);
    LooksNotEmpty(ctx, vs, m2.list);
    var j3 := ctx.Jump(s, m2);
    var r3 := Step(ctx.code, s, 3, j3.list);
    FeedOne(ctx, s, true, m2, j3);
    AdvanceIs(ctx, s, j3);
    AlikeInitial(ctx, r3.threads, AfterSkip(ctx, x, c).threads);
    LooksNotEmpty(ctx, vs, r3.threads);
    var m4 := Machine(4, r3.threads, r3.hit, true);
    FeedLast(ctx, s, m4);
    StartLate(ctx, vs, s, 1);
    LateStep(ctx, s, 1, j1.list, 1, 2);
    StartLate(ctx, vs, s, 3);
    LateStep(ctx, s, 3, j3.list, 3, 4);
    LateStep(ctx, s, 4, r3.threads, 3, 9);
    LateWider(ctx, s, r3.hit.value, 3, 4, 9);
    early := r1.hit.value;
    late := OrElse(Step(ctx.code, s, 4, r3.threads).hit, r3.hit).value;
  }

  lemma InitialLooks(ctx: Setup)
    ensures ctx.LooksInitial(ctx.Initial())
  {
  }

  /** The context of a program as it is created, with `n` capture slots. */
  function SetupOf(code: Code, n: nat): Setup {
    Setup(code, LeadingOf(code), n)
  }

  lemma SetupSound(code: Code, bs: seq<Branch>, n: nat)
    requires ProgramOf(code, bs) && BranchesLookAheadFree(bs)
    ensures Sound(SetupOf(code, n))
  {
    hide ProgramOf, LeadsAll, CodeLookAheadFree, WellTargeted, BranchesLookAheadFree;
    ProgramRuns(code, bs);
    ProgramSearches(code, bs);
    if LeadingOf(code).Some? { LeadingListCovers(code); }
  }

  /** An unsafe program reports a match on its probe although another one starts
      earlier. */
  lemma UnsafeShows(code: Code, bs: seq<Branch>, n: nat) returns (s: seq<Byte>)
    requires ProgramOf(code, bs) && BranchesLookAheadFree(bs) && WindowsFit(bs, n) && !SkipSafe(SetupOf(code, n))
    ensures var v := SetupOf(code, n).Exec(s, true, SetupOf(code, n).Fresh());
            v.Matched? && !LeftmostMatch(bs, s, Some(v.hit)) && v != Final(Answer(code, s, n))
  {
    hide ProgramOf, BranchesLookAheadFree, Sound, Cover, Hits, Answer, Setup.Exec, Setup.LooksInitial, Found, Matches,
        AfterSkip, LeadingOf;
    var ctx := SetupOf(code, n);
    SetupSound(code, bs, n);
    var vs := SoundCover(ctx);
    var x: Byte, c: Byte :| !Hits(code, ctx.lead.value, x) && AfterSkip(ctx, x, c).hit.Some?
        && SameButLast(AfterSkip(ctx, x, c).threads, Begin(code, Place(0, true, true), n).threads);
    LooksInitialIs(ctx, AfterSkip(ctx, x, c).threads);
    s := Probe(x, c);
    var early, late := ProbeAnswer(ctx, vs, x, c);
    var i: nat :| i <= 2 && Found(code, s, n, i, early);
    var k: nat :| 3 <= k && Found(code, s, n, k, late);
    FoundMatches(code, bs, s, n, i, early);
    FoundMatches(code, bs, s, n, k, late);
    PikeIsLeftmost(code, bs, s, n);
    assert Matches(bs[early.id].tree, s, i, EndOf(bs, early) as nat);
  }

  /** The theorem: calling the machine with the jump gives the answer of the
      search without it on every stream if and only if the program is SkipSafe;
      and then no way of cutting the stream into chunks changes that. */
  lemma SkipInvisible(code: Code, bs: seq<Branch>, n: nat)
    requires ProgramOf(code, bs) && BranchesLookAheadFree(bs) && WindowsFit(bs, n)
    ensures var ctx := SetupOf(code, n);
            && (SkipSafe(ctx) <==> forall s: seq<Byte> :: ctx.Exec(s, true, ctx.Fresh()) == Final(Answer(code, s, n)))
            && (SkipSafe(ctx) <==> forall chunks: seq<seq<Byte>> :: chunks != [] ==>
                                     Calls(ctx, [], chunks, ctx.Fresh()) == Final(Answer(code, Joined(chunks), n)))
  {
    var ctx := SetupOf(code, n);
    SetupSound(code, bs, n);
    hide SetupOf, ProgramOf, BranchesLookAheadFree, Sound, SkipSafe, Answer, Setup.Exec, Setup.Fresh, WindowsFit, Calls;
    SetupIs(code, n);
    if SkipSafe(ctx) {
      forall s: seq<Byte> ensures ctx.Exec(s, true, ctx.Fresh()) == Final(Answer(code, s, n)) {
        ChunksDoNotMatter(ctx, [s]);
        OneCall(ctx, s);
      }
      forall chunks: seq<seq<Byte>> | chunks != []
        ensures Calls(ctx, [], chunks, ctx.Fresh()) == Final(Answer(code, Joined(chunks), n))
      {
        ChunksDoNotMatter(ctx, chunks);
      }
    } else {
      var s := UnsafeShows(code, bs, n);
      OneCall(ctx, s);
    }
  }

  lemma SetupIs(code: Code, n: nat)
    ensures SetupOf(code, n).code == code && SetupOf(code, n).slots == n
    ensures SetupOf(code, n).Fresh().pos == 0
  {
  }

  lemma OneCall(ctx: Setup, s: seq<Byte>)
    ensures Joined([s]) == s && ctx.Fresh().pos == 0
            && Calls(ctx, [], [s], ctx.Fresh()) == ctx.Exec(s, true, ctx.Fresh())
  {
    assert [] + s == s;
    hide Setup.Exec;
  }
}
