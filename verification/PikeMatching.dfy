/** End to end: compiling a set of regexes and matching a stream with Pike, chunk
    by chunk, through the machine that mutates. */
module PikeMatching {
  import opened Regexes
  import opened Chunks
  import opened Bytecode
  import opened Compiler
  import opened Programs
  import opened ThompsonMatching
  import opened PikeMachine
  import opened LeadingBytes
  import opened PikeStream
  import opened PikeLeftmost
  import opened PikeSkip
  import opened PikeLate
  import opened PikeChunks
  import opened PikeSkipExact
  import opened PikeFinds
  import opened PikePartial
  import opened Windows
  import Thompson
  import Pike

  /** Compiles a tree; None when the emitter does not fill the buffer exactly,
      which never happens. */
  method Compile(re: Regex) returns (code: Option<Code>)
    ensures code.Some? && |code.value| == ProgramLen(re) && Layout(code.value, 0, re)
  {
    hide Layout;
    var n := ProgramLen(re);
    var buf := new Inst[n](_ => Match(0));
    var pc := EmitBytecode(buf, 0, re);
    code := if pc == n then Some(buf[..]) else None;
  }

  /** The first regexes of a set are numbered as `ncaps` counts them. */
  ghost predicate NumberedSoFar(bs: seq<Branch>, ncaps: seq<nat>) {
    |bs| <= |ncaps| && forall k :: 0 <= k < |bs| ==> bs[k].ncaps == ncaps[k] && bs[k].group == Base(ncaps, k)
  }

  lemma LastWindow(bs: seq<Branch>, ncaps: seq<nat>)
    requires |bs| > 0 && NumberedSoFar(bs, ncaps)
    ensures WindowEnd(bs[|bs| - 1]) == 2 * Base(ncaps, |bs|) && NumberedSoFar(bs[..|bs| - 1], ncaps)
    ensures Base(ncaps, |bs| - 1) <= Base(ncaps, |bs|)
  {
  }

  /** Every SAVE of a set has its slot. */
  lemma {:induction false} ChainFits(code: Code, b: nat, bs: seq<Branch>, ncaps: seq<nat>, pc: nat)
    requires |bs| > 0 && AllWellFormed(bs) && Layout(code, b, Chain(bs)) && NumberedSoFar(bs, ncaps)
    requires b <= pc < b + ProgramLen(Chain(bs)) && pc < |code| && code[pc].Save?
    ensures code[pc].group < 2 * Base(ncaps, |bs|)
    decreases |bs|
  {
    hide Layout, ProgramLen, Leaf, NumberedSoFar, Base, WindowEnd, Plain, GroupsWithin;
    var last := |bs| - 1;
    LastWindow(bs, ncaps);
    if last == 0 {
      LeafSaves(code, b, bs[0], 0, pc);
    } else {
      UnfoldAlt(code, b, Chain(bs[..last]), Leaf(bs[last], last));
      var m := b + 1 + ProgramLen(Chain(bs[..last]));
      if b < pc < m {
        ChainFits(code, b + 1, bs[..last], ncaps, pc);
      } else if m < pc {
        LeafSaves(code, m + 1, bs[last], last, pc);
      }
    }
  }

  lemma ProgramFits(code: Code, bs: seq<Branch>, ncaps: seq<nat>)
    requires ProgramOf(code, bs) && Numbered(bs, ncaps)
    ensures Pike.GroupsFit(code, 2 * Base(ncaps, |ncaps|)) && WindowsFit(bs, 2 * Base(ncaps, |ncaps|))
  {
    hide Layout, ProgramLen;
    ProgramSearches(code, bs);
    forall pc | 0 <= pc < |code| && code[pc].Save? ensures code[pc].group < 2 * Base(ncaps, |ncaps|) {
      ChainFits(code, 3, bs, ncaps, pc);
    }
    forall k | 0 <= k < |bs| ensures 2 * bs[k].group + 1 < 2 * Base(ncaps, |ncaps|) { BaseGrows(ncaps, k, |ncaps|); }
  }

  /** What a caller sees of an answer: the id and the captures of the match. */
  ghost predicate Shown(answer: Option<Hit>, ncaps: seq<nat>, ovector: seq<int>, r: Pike.Answer) {
    match answer
    case None => r == Pike.Declined
    case Some(h) =>
      && h.id < |ncaps| && |h.vec| >= 2 * Base(ncaps, h.id + 1) && |ovector| >= 2 * (ncaps[h.id] + 1)
      && r == Pike.Found(h.id) && ovector == Reported(h.vec, ncaps, h.id, |ovector|)
  }

  /** A context for a compiled program. */
  method Create(code: Code, ghost bs: seq<Branch>, ncaps: seq<nat>, ovector: array<int>) returns (ctx: Pike.Context)
    requires ProgramOf(code, bs) && BranchesLookAheadFree(bs) && Numbered(bs, ncaps)
    requires forall i :: 0 <= i < |ncaps| ==> ovector.Length >= 2 * (ncaps[i] + 1)
    ensures fresh(ctx) && fresh(ctx.program) && fresh(ctx.program.tags) && fresh(ctx.store) && fresh(ctx.current)
            && fresh(ctx.next)
    ensures ctx.Valid() && !ctx.ended && ctx.firstBuf && ctx.done == [] && ctx.store.all == {}
    ensures ctx.machine == ctx.Config().Fresh()
    ensures ctx.ncaps == ncaps && ctx.ovector == ovector && ctx.Config() == SetupOf(code, 2 * Base(ncaps, |ncaps|))
  {
    hide ProgramOf, BranchesLookAheadFree, Pike.GroupsFit, LeadingOf, Thompson.WellTargeted, CodeLookAheadFree,
        Searching;
    ProgramRuns(code, bs);
    ProgramSearches(code, bs);
    ProgramFits(code, bs, ncaps);
    NotEmpty(code, bs);
    var program := new Thompson.Program(code);
    var lead := GetLeadingBytes(code, program.tags, program.tag + 1);
    program.tag := program.tag + 1;
    ctx := new Pike.Context(program, lead, ncaps, ovector);
  }

  lemma NotEmpty(code: Code, bs: seq<Branch>)
    requires ProgramOf(code, bs)
    ensures |bs| > 0
  {
  }

  /** A pending match has a regex of the set, so the call does not fail. */
  lemma AgainFits(ctx: Pike.Context, setup: Setup, bs: seq<Branch>, full: seq<Byte>, m: Machine, answer: Option<Hit>,
                  r: Pike.Answer, pair: Option<(int, int)>)
    requires ctx.Tells(Verdict.Again(m), r, pair) && |bs| == |ctx.ncaps|
    requires Sure(setup, full, m, answer) && ProgramOf(setup.code, bs) && WindowsFit(bs, setup.slots)
    ensures r == Pike.Again
  {
    hide ProgramOf, WindowsFit, Matches, Base, Reported, LeastStart, GreatestSlot1, Real, Running, Traced, SkipSafe,
        MatchExists;
    if m.matched.Some? { RealIsRight(setup, bs, full, m.matched.value); }
  }

  /** What the caller of the last call sees. */
  lemma ToldIsShown(ctx: Pike.Context, bs: seq<Branch>, s: seq<Byte>, v: Verdict, r: Pike.Answer,
                    pair: Option<(int, int)>)
    requires ctx.Tells(v, r, pair) && |bs| == |ctx.ncaps| && Correct(bs, s, HitOf(v)) && !v.Again?
    ensures Shown(HitOf(v), ctx.ncaps, ctx.ovector[..], r)
  {
    hide Matches, Base, Reported, MatchExists;
  }

  /** The pair is the range of a match of a regex. */
  ghost predicate RangeOf(bs: seq<Branch>, s: seq<Byte>, id: nat, pair: (int, int))
    requires id < |bs|
  {
    0 <= pair.0 <= pair.1 <= |s| && Matches(bs[id].tree, s, pair.0, pair.1)
  }

  /** Nothing matches a range that ends before `e`. */
  ghost predicate NoneEnds(bs: seq<Branch>, s: seq<Byte>, e: nat) {
    forall id: nat, i: nat, j: nat :: id < |bs| && j < e ==> !Matches(bs[id].tree, s, i, j)
  }

  /** What the caller is told after `e` bytes. */
  ghost predicate RangePending(bs: seq<Branch>, s: seq<Byte>, pair: Option<(int, int)>, e: nat) {
    match pair
    case Some(range) => exists id: nat :: id < |bs| && RangeOf(bs, s, id, range)
    case None => NoneEnds(bs, s, e)
  }

  ghost predicate AllPending(bs: seq<Branch>, chunks: seq<seq<Byte>>, pending: seq<Option<(int, int)>>) {
    |pending| <= |chunks| && forall k :: 0 <= k < |pending| ==>
      RangePending(bs, Joined(chunks), pending[k], |Joined(chunks[..k + 1])|)
  }

  lemma NonePending(bs: seq<Branch>, chunks: seq<seq<Byte>>)
    ensures AllPending(bs, chunks, []) && Joined(chunks[..0]) == []
  {
  }

  lemma PendingMore(bs: seq<Branch>, chunks: seq<seq<Byte>>, pending: seq<Option<(int, int)>>, pair: Option<(int, int)>,
                    e: nat)
    requires AllPending(bs, chunks, pending) && |pending| < |chunks|
    requires RangePending(bs, Joined(chunks), pair, e) && e == |Joined(chunks[..|pending|])| + |chunks[|pending|]|
    ensures AllPending(bs, chunks, pending + [pair]) && e == |Joined(chunks[..|pending| + 1])|
  {
    hide RangePending;
    JoinedLast(chunks, |pending| + 1);
  }

  lemma PendingMeans(bs: seq<Branch>, chunks: seq<seq<Byte>>, pending: seq<Option<(int, int)>>)
    requires AllPending(bs, chunks, pending)
    ensures forall k :: 0 <= k < |pending| && pending[k].None? ==>
              forall id: nat, i: nat, j: nat :: id < |bs| && j < |Joined(chunks[..k + 1])| ==>
                !Matches(bs[id].tree, Joined(chunks), i, j)
    ensures forall k :: 0 <= k < |pending| && pending[k].Some? ==>
              var pair := pending[k].value;
              exists id: nat :: id < |bs| && 0 <= pair.0 <= pair.1 <= |Joined(chunks)|
                                && Matches(bs[id].tree, Joined(chunks), pair.0, pair.1)
  {
    hide Matches, Joined;
    var s := Joined(chunks);
    forall k | 0 <= k < |pending| && pending[k].None? ensures NoneEnds(bs, s, |Joined(chunks[..k + 1])|) {
      assert RangePending(bs, s, pending[k], |Joined(chunks[..k + 1])|);
    }
    forall k | 0 <= k < |pending| && pending[k].Some?
      ensures var pair := pending[k].value;
              exists id: nat :: id < |bs| && 0 <= pair.0 <= pair.1 <= |s| && Matches(bs[id].tree, s, pair.0, pair.1)
    {
      assert RangePending(bs, s, pending[k], |Joined(chunks[..k + 1])|);
      var id: nat :| id < |bs| && RangeOf(bs, s, id, pending[k].value);
    }
  }

  /** While no match is pending, none ends before the bytes that have been read. */
  lemma NoneSoFar(setup: Setup, bs: seq<Branch>, full: seq<Byte>, m: Machine, answer: Option<Hit>)
    requires Sure(setup, full, m, answer) && ProgramOf(setup.code, bs) && m.matched.None?
    ensures NoneEnds(bs, full, m.pos)
  {
    hide ProgramOf, Matches, Traced, SkipSafe, Scan, Tracked, Complete, Bounded, AllBefore, Found, From, LeftBehind;
    var starts, known :| SearchInv(setup.code, full, setup.slots, m.pos, m.list, starts, m.matched, known);
    forall id: nat, i: nat, j: nat | id < |bs| && j < m.pos ensures !Matches(bs[id].tree, full, i, j) {
      if Matches(bs[id].tree, full, i, j) { NoneBefore(setup.code, bs, full, m.pos, id, i, j); }
    }
  }

  lemma NoneBefore(code: Code, bs: seq<Branch>, s: seq<Byte>, e: nat, id: nat, i: nat, j: nat)
    requires ProgramOf(code, bs) && AllBefore(code, s, e, None) && id < |bs| && j < e
    ensures !Matches(bs[id].tree, s, i, j)
  {
    hide ProgramOf, Matches, From;
    if Matches(bs[id].tree, s, i, j) { var v := MatchesFrom(code, bs, s, id, i, j); }
  }

  /** What is reported between two calls is the range of a match as well; nothing is
      reported only if none has ended before the bytes that have been read. */
  lemma PendingIsReal(ctx: Pike.Context, setup: Setup, bs: seq<Branch>, full: seq<Byte>, v: Verdict,
                      answer: Option<Hit>, pair: Option<(int, int)>)
    requires ctx.Tells(v, Pike.Again, pair) && Numbered(bs, ctx.ncaps)
    requires (v.Again? ==> Sure(setup, full, v.machine, answer)) && ProgramOf(setup.code, bs)
             && WindowsFit(bs, setup.slots)
    ensures v.Again? ==> RangePending(bs, full, pair, v.machine.pos)
  {
    hide ProgramOf, WindowsFit, Matches, Base, Reported, LeastStart, GreatestSlot1, Real, Running, Traced, SkipSafe,
        MatchExists, NoneEnds, Sure;
    if v.Again? && v.machine.matched.None? { NoneSoFar(setup, bs, full, v.machine, answer); }
    if v.Again? && v.machine.matched.Some? {
      var h := v.machine.matched.value;
      SureReal(setup, full, v.machine, answer);
      RealIsRight(setup, bs, full, h);
      if pair.Some? { assert RangeOf(bs, full, h.id, pair.value); }
    }
  }

  lemma SureReal(setup: Setup, full: seq<Byte>, m: Machine, answer: Option<Hit>)
    requires Sure(setup, full, m, answer) && m.matched.Some?
    ensures Real(setup, full, m.matched.value)
  {
    hide Running, Traced, SkipSafe, Real;
  }

  lemma ExistsIs(bs: seq<Branch>, s: seq<Byte>)
    ensures MatchExists(bs, s) <==> exists id: nat, i: nat, j: nat :: id < |bs| && j <= |s|
                                                                      && Matches(bs[id].tree, s, i, j)
  {
    hide Matches, MatchEnds;
    if id: nat, i: nat, j: nat :| id < |bs| && j <= |s| && Matches(bs[id].tree, s, i, j) {
      EndsIf(bs, s, id, i, j);
    }
    if j: nat :| j <= |s| && MatchEnds(bs, s, j) {
      var id, i := OneEnds(bs, s, j);
    }
  }

  lemma EndsIf(bs: seq<Branch>, s: seq<Byte>, id: nat, i: nat, j: nat)
    requires id < |bs| && Matches(bs[id].tree, s, i, j)
    ensures MatchEnds(bs, s, j)
  {
    hide Matches;
    MatchBounds(bs[id].tree, s, i, j);
  }

  lemma OneEnds(bs: seq<Branch>, s: seq<Byte>, j: nat) returns (id: nat, i: nat)
    requires MatchEnds(bs, s, j)
    ensures id < |bs| && Matches(bs[id].tree, s, i, j)
  {
    hide Matches;
    id, i :| id < |bs| && i <= j && Matches(bs[id].tree, s, i, j);
  }

  /** What that means for the caller. */
  lemma ShownMeans(bs: seq<Branch>, ncaps: seq<nat>, s: seq<Byte>, answer: Option<Hit>, ovector: seq<int>,
                   r: Pike.Answer)
    requires Shown(answer, ncaps, ovector, r) && Correct(bs, s, answer) && Numbered(bs, ncaps)
    requires forall i :: 0 <= i < |ncaps| ==> |ovector| >= 2 * (ncaps[i] + 1)
    ensures r.Found? <==> answer.Some?
    ensures r == Pike.Declined || (r.Found? && answer.Some? && answer.value.id == r.id < |bs| == |ncaps|)
    ensures r.Found? <==> exists id: nat, i: nat, j: nat :: id < |bs| && j <= |s| && Matches(bs[id].tree, s, i, j)
    ensures r.Found? ==> 0 <= ovector[0] <= ovector[1] <= |s| && Matches(bs[r.id].tree, s, ovector[0], ovector[1])
    ensures r.Found? ==>
              var base, len := 2 * Base(ncaps, r.id), 2 * (ncaps[r.id] + 1);
              && base + len <= |answer.value.vec|
              && (forall k :: 0 <= k < len ==> ovector[k] == answer.value.vec[base + k])
              && (forall k :: len <= k < |ovector| ==> ovector[k] == -1)
  {
    hide Matches, Reported, Base, MatchExists;
    ExistsIs(bs, s);
    if answer.Some? { ReportedIs(answer.value.vec, ncaps, answer.value.id, |ovector|); }
  }

  /** Matches a stream that arrives in chunks against a compiled set of regexes.
      There is an answer exactly if some regex matches somewhere, and its range
      matches; for a SkipSafe program it is the leftmost match by priority, whatever
      the chunks. */
  method MatchChunks(code: Code, ghost bs: seq<Branch>, ncaps: seq<nat>, chunks: seq<seq<Byte>>, ovector: array<int>)
    returns (r: Pike.Answer, pending: seq<Option<(int, int)>>, ghost answer: Option<Hit>)
    requires ProgramOf(code, bs) && BranchesLookAheadFree(bs) && Numbered(bs, ncaps) && chunks != []
    requires forall i :: 0 <= i < |ncaps| ==> ovector.Length >= 2 * (ncaps[i] + 1)
    modifies ovector
    ensures Shown(answer, ncaps, ovector[..], r) && Correct(bs, Joined(chunks), answer)
    ensures r == Pike.Declined || (r.Found? && answer.Some? && answer.value.id == r.id < |bs| == |ncaps|)
    ensures r.Found? <==> exists id: nat, i: nat, j: nat ::
              id < |bs| && j <= |Joined(chunks)| && Matches(bs[id].tree, Joined(chunks), i, j)
    ensures r.Found? ==> 0 <= ovector[0] <= ovector[1] <= |Joined(chunks)|
                         && Matches(bs[r.id].tree, Joined(chunks), ovector[0], ovector[1])
    ensures r.Found? ==>
              var base, len := 2 * Base(ncaps, r.id), 2 * (ncaps[r.id] + 1);
              && base + len <= |answer.value.vec|
              && (forall k :: 0 <= k < len ==> ovector[k] == answer.value.vec[base + k])
              && (forall k :: len <= k < ovector.Length ==> ovector[k] == -1)
    ensures answer.Some? ==> exists i: nat :: Found(code, Joined(chunks), 2 * Base(ncaps, |ncaps|), i, answer.value)
    ensures forall k :: 0 <= k < |pending| && pending[k].Some? ==>
              var pair := pending[k].value;
              exists id: nat :: id < |bs| && 0 <= pair.0 <= pair.1 <= |Joined(chunks)|
                                && Matches(bs[id].tree, Joined(chunks), pair.0, pair.1)
    ensures |pending| < |chunks| && (r == Pike.Declined ==> |pending| + 1 == |chunks|)
    ensures forall k :: 0 <= k < |pending| && pending[k].None? ==>
              forall id: nat, i: nat, j: nat :: id < |bs| && j < |Joined(chunks[..k + 1])| ==>
                !Matches(bs[id].tree, Joined(chunks), i, j)
    ensures var n := 2 * Base(ncaps, |ncaps|);
            SkipSafe(SetupOf(code, n)) ==> answer == Answer(code, Joined(chunks), n)
                                           && LeftmostMatch(bs, Joined(chunks), answer)
  {
    hide *;
    ghost var n, full := 2 * Base(ncaps, |ncaps|), Joined(chunks);
    ghost var setup, best := SetupOf(code, n), Answer(code, full, n);
    var ctx := Create(code, bs, ncaps, ovector);
    Facts(code, bs, ncaps, full);
    assert chunks[0..] == chunks;
    var k, pair := 0, None;
    pending := [];
    NonePending(bs, chunks);
    while k + 1 < |chunks|
      invariant k < |chunks| && ctx.Valid() && !ctx.ended && ctx.ovector == ovector
      invariant fresh(ctx) && fresh(ctx.program) && fresh(ctx.program.tags) && fresh(ctx.store) && fresh(ctx.store.all)
      invariant fresh(ctx.current) && fresh(ctx.next) && ctx.Config() == setup && ctx.ncaps == ncaps
      invariant Sure(setup, full, ctx.machine, best) && ctx.machine.pos == |ctx.done|
                && full == ctx.done + Joined(chunks[k..])
      invariant AllPending(bs, chunks, pending) && |pending| == k && |ctx.done| == |Joined(chunks[..k])|
    {
      ghost var done, m := ctx.done, ctx.machine;
      NextChunk(setup, full, done, m, chunks, k, false, best);
      r, pair := ctx.Exec(chunks[k], false);
      ghost var verdict := setup.Exec(done + chunks[k], false, m);
      if r != Pike.Again {
        if verdict.Again? { AgainFits(ctx, setup, bs, full, verdict.machine, best, r, pair); }
        answer := HitOf(verdict);
        VerdictCorrect(setup, bs, full, verdict, best);
        ToldIsShown(ctx, bs, full, verdict, r, pair);
        Conclude(code, setup, bs, ncaps, full, verdict, best, ovector[..], r);
        PendingMeans(bs, chunks, pending);
        return;
      }
      PendingIsReal(ctx, setup, bs, full, verdict, best, pair);
      PendingMore(bs, chunks, pending, pair, |ctx.done|);
      pending := pending + [pair];
      k := k + 1;
    }
    ghost var done, m := ctx.done, ctx.machine;
    NextChunk(setup, full, done, m, chunks, k, true, best);
    r, pair := ctx.Exec(chunks[k], true);
    ghost var verdict := setup.Exec(done + chunks[k], true, m);
    answer := HitOf(verdict);
    VerdictCorrect(setup, bs, full, verdict, best);
    ToldIsShown(ctx, bs, full, verdict, r, pair);
    Conclude(code, setup, bs, ncaps, full, verdict, best, ovector[..], r);
    PendingMeans(bs, chunks, pending);
  }

  /** All that is promised of the last verdict. */
  lemma Conclude(code: Code, setup: Setup, bs: seq<Branch>, ncaps: seq<nat>, full: seq<Byte>, v: Verdict,
                 best: Option<Hit>,
                 ovector: seq<int>, r: Pike.Answer)
    requires Shown(HitOf(v), ncaps, ovector, r) && Correct(bs, full, HitOf(v)) && Numbered(bs, ncaps)
    requires forall i :: 0 <= i < |ncaps| ==> |ovector| >= 2 * (ncaps[i] + 1)
    requires setup == SetupOf(code, 2 * Base(ncaps, |ncaps|))
    requires !v.Again? && (v.Matched? ==> Settled(setup, full, Some(v.hit), best))
    ensures r.Found? <==> v.Matched?
    ensures var answer := HitOf(v);
            && (r == Pike.Declined || (r.Found? && answer.Some? && answer.value.id == r.id < |bs| == |ncaps|))
            && (r.Found? <==> exists id: nat, i: nat, j: nat ::
                  id < |bs| && j <= |full| && Matches(bs[id].tree, full, i, j))
            && (r.Found? ==> 0 <= ovector[0] <= ovector[1] <= |full|
                             && Matches(bs[r.id].tree, full, ovector[0], ovector[1]))
            && (r.Found? ==>
                  var base, len := 2 * Base(ncaps, r.id), 2 * (ncaps[r.id] + 1);
                  && base + len <= |answer.value.vec|
                  && (forall k :: 0 <= k < len ==> ovector[k] == answer.value.vec[base + k])
                  && (forall k :: len <= k < |ovector| ==> ovector[k] == -1))
            && (answer.Some? ==> exists i: nat :: Found(code, full, 2 * Base(ncaps, |ncaps|), i, answer.value))
  {
    hide *;
    HitIs(v);
    ShownMeans(bs, ncaps, full, HitOf(v), ovector, r);
    RealMeans(code, ncaps, setup, full, v, best);
  }

  lemma HitIs(v: Verdict)
    ensures HitOf(v).Some? <==> v.Matched?
  {
  }

  lemma RealMeans(code: Code, ncaps: seq<nat>, setup: Setup, full: seq<Byte>, v: Verdict, best: Option<Hit>)
    requires setup == SetupOf(code, 2 * Base(ncaps, |ncaps|))
    requires !v.Again? && (v.Matched? ==> Settled(setup, full, Some(v.hit), best))
    ensures HitOf(v).Some? ==> exists i: nat :: Found(code, full, 2 * Base(ncaps, |ncaps|), i, HitOf(v).value)
  {
    hide Found, SkipSafe, Base;
    if v.Matched? {
      var i: nat :| Found(setup.code, full, setup.slots, i, v.hit);
    }
  }

  lemma Facts(code: Code, bs: seq<Branch>, ncaps: seq<nat>, full: seq<Byte>)
    requires ProgramOf(code, bs) && BranchesLookAheadFree(bs) && Numbered(bs, ncaps)
    ensures var n := 2 * Base(ncaps, |ncaps|);
            Sound(SetupOf(code, n)) && LeftmostMatch(bs, full, Answer(code, full, n)) && |bs| == |ncaps|
            && SetupOf(code, n).code == code && SetupOf(code, n).slots == n && WindowsFit(bs, n)
            && Sure(SetupOf(code, n), full, SetupOf(code, n).Fresh(), Answer(code, full, n))
            && SetupOf(code, n).Fresh().pos == 0 && full == [] + full
  {
    hide Running, Scan, LeadingOf, Begin, Sure;
    hide ProgramOf, BranchesLookAheadFree, LeftmostMatch, Answer, Sound, Base;
    var n := 2 * Base(ncaps, |ncaps|);
    ProgramFits(code, bs, ncaps);
    SetupSound(code, bs, n);
    FreshRunning(SetupOf(code, n), full);
    RunningSure(SetupOf(code, n), full, SetupOf(code, n).Fresh());
    PikeIsLeftmost(code, bs, full, n);
  }

  lemma NextChunk(ctx: Setup, full: seq<Byte>, done: seq<Byte>, m: Machine, chunks: seq<seq<Byte>>, k: nat, eof: bool,
                  answer: Option<Hit>)
    requires Sound(ctx) && Sure(ctx, full, m, answer) && m.pos == |done|
    requires k < |chunks| && full == done + Joined(chunks[k..]) && (eof ==> k + 1 == |chunks|)
    ensures full == done + chunks[k] + Joined(chunks[k + 1..]) && m.pos <= |done + chunks[k]|
    ensures match ctx.Exec(done + chunks[k], eof, m)
            case Matched(h) => Settled(ctx, full, Some(h), answer)
            case Declined => eof && answer == None
            case Again(m') => !eof && m'.pos == |done + chunks[k]| && (done + chunks[k])[..m'.pos] == done + chunks[k]
                              && Sure(ctx, full, m', answer)
  {
    hide *;
    JoinedStep(done, chunks, k);
    ExecSure(ctx, done + chunks[k], eof, m, full, answer);
    assert (done + chunks[k])[..|done + chunks[k]|] == done + chunks[k];
  }

  lemma JoinedStep(done: seq<Byte>, chunks: seq<seq<Byte>>, k: nat)
    requires k < |chunks|
    ensures done + Joined(chunks[k..]) == done + chunks[k] + Joined(chunks[k + 1..])
    ensures k + 1 == |chunks| ==> Joined(chunks[k + 1..]) == []
  {
    assert chunks[k..][0] == chunks[k] && chunks[k..][1..] == chunks[k + 1..];
  }
}
