/** What Pike promises with the jump to the next leading byte: for every program, that
    there is an answer exactly if something matches, and that its range matches; and
    that nothing starts earlier exactly for the programs that are SkipSafe. */
module PikeFinds {
  import opened Regexes
  import opened Chunks
  import opened Bytecode
  import opened Programs
  import opened ThompsonMatching
  import opened PikeMachine
  import opened PikeStream
  import opened PikeOrder
  import opened PikeLeftmost
  import opened PikeLate
  import opened PikeChunks
  import opened PikeSkipExact

  /** The range reported for an answer matches the regex it names, and there is an
      answer exactly if something matches. */
  ghost predicate Correct(bs: seq<Branch>, s: seq<Byte>, answer: Option<Hit>) {
    && (answer.Some? <==> MatchExists(bs, s)) && (answer.Some? ==> RightRange(bs, s, answer.value))
  }

  lemma RealIsRight(ctx: Setup, bs: seq<Branch>, s: seq<Byte>, h: Hit)
    requires Real(ctx, s, h) && ProgramOf(ctx.code, bs) && WindowsFit(bs, ctx.slots)
    ensures RightRange(bs, s, h) && MatchExists(bs, s)
  {
    hide ProgramOf, WindowsFit, Matches, Found;
    var i: nat :| Found(ctx.code, s, ctx.slots, i, h);
    FoundMatches(ctx.code, bs, s, ctx.slots, i, h);
    RangeExists(bs, s, h);
  }

  lemma RangeExists(bs: seq<Branch>, s: seq<Byte>, h: Hit)
    requires RightRange(bs, s, h)
    ensures MatchExists(bs, s)
  {
    hide Matches;
    assert MatchEnds(bs, s, EndOf(bs, h));
  }

  /** What the last call has found is correct, and for a SkipSafe program it is the
      answer of the search without the jump. */
  lemma VerdictCorrect(ctx: Setup, bs: seq<Branch>, s: seq<Byte>, v: Verdict, answer: Option<Hit>)
    requires ProgramOf(ctx.code, bs) && WindowsFit(bs, ctx.slots) && LeftmostMatch(bs, s, answer)
    requires !v.Again? && (v.Matched? ==> Settled(ctx, s, Some(v.hit), answer)) && (v.Declined? ==> answer == None)
    ensures Correct(bs, s, HitOf(v)) && (SkipSafe(ctx) ==> HitOf(v) == answer)
  {
    hide ProgramOf, WindowsFit, Matches, Real, SkipSafe, RightRange, MatchExists;
    if v.Matched? { RealIsRight(ctx, bs, s, v.hit); }
  }

  function HitOf(v: Verdict): Option<Hit> {
    if v.Matched? then Some(v.hit) else None
  }

  /** The theorem for every look-ahead-free program and every way of cutting the
      stream: the calls end, with a match exactly if there is one, as the Thompson VM
      has it too, and the range reported matches the regex named. */
  lemma PikeFinds(code: Code, bs: seq<Branch>, chunks: seq<seq<Byte>>, n: nat)
    requires ProgramOf(code, bs) && BranchesLookAheadFree(bs) && WindowsFit(bs, n) && chunks != []
    ensures var v := Calls(SetupOf(code, n), [], chunks, SetupOf(code, n).Fresh());
            !v.Again? && Correct(bs, Joined(chunks), HitOf(v))
  {
    hide *;
    var ctx, s := SetupOf(code, n), Joined(chunks);
    var answer := Answer(code, s, n);
    SetupSound(code, bs, n);
    SetupIs(code, n);
    PikeIsLeftmost(code, bs, s, n);
    assert [] + s == s;
    FreshRunning(ctx, s);
    RunningSure(ctx, s, ctx.Fresh());
    CallsSure(ctx, [], chunks, ctx.Fresh(), answer);
    VerdictCorrect(ctx, bs, s, Calls(ctx, [], chunks, ctx.Fresh()), answer);
  }

  /** The theorem: no match of any regex starts before the one reported, on every
      stream, if and only if the program is SkipSafe. */
  lemma LeftmostExactly(code: Code, bs: seq<Branch>, n: nat)
    requires ProgramOf(code, bs) && BranchesLookAheadFree(bs) && WindowsFit(bs, n)
    ensures var ctx := SetupOf(code, n);
            SkipSafe(ctx) <==> forall s: seq<Byte> :: LeftmostMatch(bs, s, HitOf(ctx.Exec(s, true, ctx.Fresh())))
  {
    hide ProgramOf, BranchesLookAheadFree, SkipSafe, Answer, Setup.Exec, Setup.Fresh, WindowsFit, Calls,
        LeftmostMatch, SetupOf;
    var ctx := SetupOf(code, n);
    SetupIs(code, n);
    if SkipSafe(ctx) {
      SkipInvisible(code, bs, n);
      forall s: seq<Byte> ensures LeftmostMatch(bs, s, HitOf(ctx.Exec(s, true, ctx.Fresh()))) {
        PikeIsLeftmost(code, bs, s, n);
        assert ctx.Exec(s, true, ctx.Fresh()) == Final(Answer(code, s, n));
      }
    } else {
      var s := UnsafeShows(code, bs, n);
      assert !LeftmostMatch(bs, s, HitOf(ctx.Exec(s, true, ctx.Fresh())));
    }
  }

  /** The theorem: the id and the captures are those the priorities of the regexes
      ask for, on every stream, if and only if the program is SkipSafe. */
  lemma PrioritiesExactly(code: Code, bs: seq<Branch>, n: nat)
    requires ProgramOf(code, bs) && BranchesLookAheadFree(bs) && AllProper(bs) && WindowsFit(bs, n)
    ensures var ctx := SetupOf(code, n);
            SkipSafe(ctx) <==> forall s: seq<Byte> :: ctx.Exec(s, true, ctx.Fresh()) == Final(Best(bs, s, 0, Blank(n)))
  {
    hide ProgramOf, BranchesLookAheadFree, SkipSafe, Answer, Setup.Exec, Setup.Fresh, WindowsFit, Calls, SetupOf,
        AllProper, Best, Blank;
    SkipInvisible(code, bs, n);
    forall s: seq<Byte> ensures Answer(code, s, n) == Best(bs, s, 0, Blank(n)) {
      PikeFollowsPriorities(code, bs, s, n);
    }
  }
}
