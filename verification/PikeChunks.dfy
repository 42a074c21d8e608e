/** The Pike VM called chunk by chunk, with the jump to the next leading byte,
    against one search of the whole stream without it.

    The jump can be seen in an answer: the machine remembers having seen the start
    state from a jump over the step that finds a match, and its test of the list
    leaves out the last thread.  SkipSafe says when that is harmless. */
module PikeChunks {
  import opened Regexes
  import opened Chunks
  import opened Bytecode
  import opened Programs
  import opened Finite
  import opened PikeMachine
  import opened LeadingBytes
  import opened PikeStream
  import opened PikeLeftmost
  import opened PikeSkip
  import opened PikeLate

  /** The list of a search that begins behind the byte `x` inside the stream, run on the byte `c`. */
  function AfterSkip(ctx: Setup, x: Byte, c: Byte): Added {
    var begun := Begin(ctx.code, Place(1, false, x == NEWLINE), ctx.slots).threads;
    RunThreads(ctx.code, Some(c), Place(2, false, c == NEWLINE), begun, {}, [])
  }

  /** As many threads in both lists, and but for the last one at the same instructions. */
  predicate SameButLast(a: seq<Thread>, b: seq<Thread>) {
    |a| == |b| && forall k :: 0 <= k < |a| - 1 ==> a[k].pc == b[k].pc
  }

  /** Take a byte `x` that no listed instruction accepts and a byte `c` on which a search
      that begins behind `x` matches at once: the threads that stay then are more or
      fewer than a search at the start of the stream begins with, or some thread that is
      not the last one is at another instruction. */
  predicate SkipSafe(ctx: Setup) {
    ctx.lead.Some? ==>
      forall x: Byte, c: Byte :: !Hits(ctx.code, ctx.lead.value, x) && AfterSkip(ctx, x, c).hit.Some? ==>
        !SameButLast(AfterSkip(ctx, x, c).threads, Begin(ctx.code, Place(0, true, true), ctx.slots).threads)
  }

  /** The machine's own test of its list compares with that beginning. */
  lemma LooksInitialIs(ctx: Setup, list: seq<Thread>)
    ensures ctx.LooksInitial(list) <==> SameButLast(list, Begin(ctx.code, Place(0, true, true), ctx.slots).threads)
  {
    hide Begin;
  }

  /** A list that a match right after a jump can leave. */
  ghost predicate LeftBehind(ctx: Setup, list: seq<Thread>)
    requires ctx.lead.Some?
  {
    exists x: Byte, c: Byte :: !Hits(ctx.code, ctx.lead.value, x) && AfterSkip(ctx, x, c).hit.Some?
                               && Alike(list, AfterSkip(ctx, x, c).threads)
  }

  lemma NeverInitial(ctx: Setup, list: seq<Thread>)
    requires SkipSafe(ctx) && ctx.lead.Some? && LeftBehind(ctx, list)
    ensures !ctx.LooksInitial(list)
  {
    hide Hits, Setup.StartList, Setup.Initial, AfterSkip;
    var x: Byte, c: Byte :| !Hits(ctx.code, ctx.lead.value, x) && AfterSkip(ctx, x, c).hit.Some?
        && Alike(list, AfterSkip(ctx, x, c).threads);
    LooksInitialIs(ctx, AfterSkip(ctx, x, c).threads);
    LooksInitialIs(ctx, list);
  }

  /** What holds of a context between two calls, and between two steps. */
  ghost predicate Running(ctx: Setup, s: seq<Byte>, m: Machine) {
    && OnCourse(ctx, s, m.pos, m.list, m.matched)
    && (ctx.lead.Some? && m.seen ==> m.matched.None? || LeftBehind(ctx, m.list))
  }

  /** What the search still to come will answer. */
  ghost function Value(ctx: Setup, s: seq<Byte>, m: Machine): Option<Hit>
    requires m.pos <= |s|
  {
    Scan(ctx.code, s, m.pos, m.list, m.matched)
  }

  /** Right after a jump. */
  ghost predicate JustStarted(ctx: Setup, s: seq<Byte>, m: Machine) {
    && ctx.lead.Some? && 0 < m.pos <= |s| && !Hits(ctx.code, ctx.lead.value, s[m.pos - 1])
    && m.matched.None? && m.list == ctx.StartList(PlaceIn(s, m.pos))
  }

  /** A list that looks initial while the search goes on is waiting. */
  lemma LooksWaiting(ctx: Setup, vs: set<nat>, list: seq<Thread>)
    requires Sound(ctx) && Cover(ctx, vs) && ctx.LooksInitial(list) && list != []
             && list[|list| - 1] == Searcher(ctx.slots)
    ensures Waiting(ctx, vs, list)
  {
    hide Sound, Cover, Setup.StartList;
    StartWaiting(ctx, vs, Place(0, true, true));
    var initial := ctx.Initial();
    forall k | 0 <= k < |list| - 1
      ensures list[..|list| - 1][k].pc in vs && list[k].pc < |ctx.code| && ctx.code[list[k].pc].Consuming()
    {
      assert initial[..|list| - 1][k] == initial[k];
    }
  }

  /** The jump changes nothing that can be seen. */
  lemma JumpKeeps(ctx: Setup, s: seq<Byte>, m: Machine, full: seq<Byte>)
    requires Sound(ctx) && Running(ctx, full, m) && s <= full && m.pos <= |s| && (SkipSafe(ctx) || m.matched.None?)
    ensures var j := ctx.Jump(s, m);
            && OnCourse(ctx, full, j.pos, j.list, j.matched) && Value(ctx, full, j) == Value(ctx, full, m)
            && (ctx.lead.Some? && j.seen ==> JustStarted(ctx, full, j))
            && (j.pos > m.pos ==> JustStarted(ctx, full, j)) && (j.pos == m.pos ==> j.list == m.list)
  {
    hide OnCourse, Scan, SkipSafe, LeftBehind, Sound, Setup.StartList, Setup.LooksInitial, Hits, PlaceIn;
    if ctx.lead.Some? && m.seen && m.pos < |s| && ctx.LooksInitial(m.list) {
      var q := ctx.FirstByte(s, m.pos);
      if q > m.pos {
        if SkipSafe(ctx) && LeftBehind(ctx, m.list) { NeverInitial(ctx, m.list); }
        var vs := SoundCover(ctx);
        OnCourseShape(ctx, full, m.pos, m.list, m.matched);
        LooksWaiting(ctx, vs, m.list);
        SkipMany(ctx, vs, full, m.pos, q, m.list);
        SamePlace(s, full, q);
      }
    }
  }

  lemma SoundCover(ctx: Setup) returns (vs: set<nat>)
    requires Sound(ctx) && ctx.lead.Some?
    ensures Cover(ctx, vs)
  {
    hide Covers;
    vs :| 0 in vs && Covers(ctx.code, vs, {}, ctx.lead.value);
  }

  /** Behind the search loop instruction 0 is not visited. */
  lemma {:induction false} AddStaysBack(code: Code, at: Place, visited: set<nat>, threads: seq<Thread>, pc: nat,
                                        vec: seq<int>, stop: bool)
    requires Searching(code) && pc >= 3 && 0 !in visited
    ensures 0 !in Add(code, at, visited, threads, pc, vec, stop).visited
    decreases UpTo(|code|) - visited, if pc in visited then 1 else 0
  {
    if pc < |code| {
      StaysBack(code, at, pc, vec);
      hide Waits, Onward, Searching;
      var seen := visited + {pc};
      if pc in visited {
        if code[pc].Split? && code[pc].y !in visited {
          AddStaysBack(code, at, visited, threads, code[pc].y, vec, stop);
        }
      } else if code[pc].Split? {
        AddStaysBack(code, at, seen, threads, code[pc].x, vec, stop);
        var l := Add(code, at, seen, threads, code[pc].x, vec, stop);
        if l.hit.None? { AddStaysBack(code, at, l.visited, l.threads, code[pc].y, vec, stop); }
      } else if !Waits(code[pc]) && Onward(code[pc], at, pc, vec).Some? {
        var t := Onward(code[pc], at, pc, vec).value;
        AddStaysBack(code, at, seen, threads, t.pc, t.vec, stop);
      }
    }
  }

  /** The start state is seen only by a search thread that found nothing. */
  lemma {:induction false} SeenStart(ctx: Setup, vs: set<nat>, c: Option<Byte>, there: Place, list: seq<Thread>,
                                     visited: set<nat>, next: seq<Thread>)
    requires Sound(ctx) && Cover(ctx, vs) && Ordered(ctx.slots, list) && 0 !in visited
    ensures var r := RunThreads(ctx.code, c, there, list, visited, next);
            0 in r.visited ==> r.hit.None? && list != [] && list[|list| - 1].pc == 1
    decreases |list|
  {
    hide *;
    var code := ctx.code;
    if list == [] {
      RunNone(code, c, there, visited, next);
    } else {
      var t := list[0];
      OrderedHead(ctx.slots, list);
      SoundSearches(ctx);
      RunPast(code, c, there, list, visited, next);
      if t.pc < |code| { RunHead(code, c, there, list, visited, next); }
      if t.pc == 1 {
        if c.Some? { SearcherClean(ctx, vs, there, visited, next); }
        SearcherAlone(code, c, there, list, visited, next);
      } else if t.pc < |code| && !code[t.pc].Match? && c.Some? && code[t.pc].Accepts(c.value) {
        AddStaysBack(code, there, visited, next, t.pc + 1, t.vec, true);
        var r := Add(code, there, visited, next, t.pc + 1, t.vec, true);
        if r.hit.None? { SeenStart(ctx, vs, c, there, list[1..], r.visited, r.threads); }
      } else {
        SeenStart(ctx, vs, c, there, list[1..], visited, next);
      }
    }
  }

  lemma OrderedHead(n: nat, list: seq<Thread>)
    requires Ordered(n, list) && list != []
    ensures Ordered(n, list[1..]) && (list[0].pc >= 3 || (list[0] == Thread(1, Blank(n)) && list[1..] == []))
    ensures list[1..] != [] ==> list[1..][|list[1..]| - 1] == list[|list| - 1]
  {
    assert forall k :: 0 <= k < |list| - 1 ==> list[1..][k] == list[k + 1];
  }

  lemma SoundSearches(ctx: Setup)
    requires Sound(ctx)
    ensures Searching(ctx.code)
  {
    hide Searching;
  }

  lemma RunPast(code: Code, c: Option<Byte>, there: Place, list: seq<Thread>, visited: set<nat>, next: seq<Thread>)
    requires list != []
    ensures list[0].pc >= |code| ==>
            RunThreads(code, c, there, list, visited, next) == RunThreads(code, c, there, list[1..], visited, next)
  {
  }

  /** The last thread is that of the search. */
  lemma SearcherAlone(code: Code, c: Option<Byte>, there: Place, list: seq<Thread>, visited: set<nat>,
                      next: seq<Thread>)
    requires Searching(code) && |list| == 1 && list[0].pc == 1 && 0 !in visited
    requires c.Some? ==> Add(code, there, visited, next, 2, list[0].vec, true).hit.None?
    ensures 0 in RunThreads(code, c, there, list, visited, next).visited ==>
            RunThreads(code, c, there, list, visited, next).hit.None?
  {
    hide Add, StaysIn;
  }

  lemma SearcherClean(ctx: Setup, vs: set<nat>, at: Place, visited: set<nat>, next: seq<Thread>)
    requires Sound(ctx) && Cover(ctx, vs)
    ensures Add(ctx.code, at, visited, next, 2, Blank(ctx.slots), true).hit.None?
  {
    var code, n := ctx.code, ctx.slots;
    CoverEntry(ctx, vs);
    var seen := visited + {2};
    AddCovered(code, vs, ctx.lead.value, at, seen + {0}, next, 3, Blank(n), true);
    var l := Add(code, at, seen + {0}, next, 3, Blank(n), true);
    assert Add(code, at, l.visited, l.threads, 1, Blank(n), true).hit.None?;
    assert Add(code, at, seen, next, 1, Blank(n), true).hit.None?;
    assert Add(code, at, seen, next, 0, Blank(n), true).hit.None?;
  }

  /** A match right after a jump leaves a list that NeverInitial knows. */
  lemma JustLeftBehind(ctx: Setup, s: seq<Byte>, m: Machine)
    requires JustStarted(ctx, s, m) && m.pos < |s| && Step(ctx.code, s, m.pos, m.list).hit.Some?
    ensures LeftBehind(ctx, Step(ctx.code, s, m.pos, m.list).threads)
  {
    var x, c := s[m.pos - 1], s[m.pos];
    var here, there := PlaceIn(s, m.pos), PlaceIn(s, m.pos + 1);
    var here', there' := Place(1, false, x == NEWLINE), Place(2, false, c == NEWLINE);
    assert SameView(here, here') && SameView(there, there');
    hide RunThreads, Add, Hits;
    AddAlike(ctx.code, here, here', {}, [], [], 0, Blank(ctx.slots), Blank(ctx.slots), false);
    RunAlike(ctx.code, Some(c), there, there', m.list, ctx.StartList(here'), {}, [], []);
    var r := Step(ctx.code, s, m.pos, m.list);
    assert AfterSkip(ctx, x, c) == RunThreads(ctx.code, Some(c), there', ctx.StartList(here'), {}, []);
    assert r == RunThreads(ctx.code, Some(c), there, m.list, {}, []);
    assert !Hits(ctx.code, ctx.lead.value, x) && AfterSkip(ctx, x, c).hit.Some?
        && Alike(r.threads, AfterSkip(ctx, x, c).threads);
  }

  lemma AdvanceKeeps(ctx: Setup, s: seq<Byte>, m: Machine, full: seq<Byte>)
    requires Sound(ctx) && s <= full && m.pos < |s| && m.list != []
    requires OnCourse(ctx, full, m.pos, m.list, m.matched)
    requires ctx.lead.Some? && m.seen ==> JustStarted(ctx, full, m)
    ensures var r := ctx.Advance(s, m);
            Running(ctx, full, r) && Value(ctx, full, r) == Value(ctx, full, m) && r.pos == m.pos + 1
  {
    hide OnCourse, Sound, LeftBehind, JustStarted, RunThreads, Ordered;
    var r := Step(ctx.code, s, m.pos, m.list);
    SameSteps(ctx.code, s, full, m.pos, m.list);
    OnCourseSteps(ctx, full, m.pos, m.list, m.matched);
    if ctx.lead.Some? && m.seen && r.hit.Some? { JustLeftBehind(ctx, full, m); }
    if ctx.lead.Some? && m.seen { assert m.matched.None? by { StartedUnmatched(ctx, full, m); } }
    if ctx.lead.Some? && 0 in r.visited {
      var vs := SoundCover(ctx);
      OnCourseShape(ctx, full, m.pos, m.list, m.matched);
      SeenStart(ctx, vs, ByteAt(s, m.pos), PlaceIn(s, m.pos + 1), m.list, {}, []);
    }
  }

  lemma StartedUnmatched(ctx: Setup, s: seq<Byte>, m: Machine)
    requires JustStarted(ctx, s, m)
    ensures m.matched.None? && m.pos <= |s| && m.list == ctx.StartList(PlaceIn(s, m.pos))
  {
  }

  lemma StartedEnds(ctx: Setup, s: seq<Byte>, m: Machine)
    requires Sound(ctx) && JustStarted(ctx, s, m) && m.pos == |s|
    ensures Value(ctx, s, m) == None && m.matched.None? && m.list != []
  {
    hide Sound, Setup.StartList, Scan, JustStarted, PlaceIn;
    StartedUnmatched(ctx, s, m);
    var vs := LeadCover(ctx, s, m);
    StartWaiting(ctx, vs, PlaceIn(s, |s|));
    WaitingEnds(ctx, vs, s, m.list);
  }

  lemma LeadCover(ctx: Setup, s: seq<Byte>, m: Machine) returns (vs: set<nat>)
    requires Sound(ctx) && JustStarted(ctx, s, m)
    ensures Cover(ctx, vs)
  {
    hide Sound, Setup.StartList, PlaceIn, Hits;
    vs := SoundCover(ctx);
  }

  /** What holds between steps and between calls, for every program: the threads and
      the match are those of real runs; and as long as there is no match, or always
      if the program is SkipSafe, the search to come answers `answer`. */
  ghost predicate Sure(ctx: Setup, s: seq<Byte>, m: Machine, answer: Option<Hit>) {
    && m.pos <= |s| && Traced(ctx, s, m.pos, m.list) && (m.matched.Some? ==> Real(ctx, s, m.matched.value))
    && (SkipSafe(ctx) || m.matched.None? ==> Running(ctx, s, m) && Value(ctx, s, m) == answer)
  }

  /** The same in the middle of a step, after the jump. */
  ghost predicate Jumped(ctx: Setup, s: seq<Byte>, j: Machine, answer: Option<Hit>) {
    && j.pos <= |s| && Traced(ctx, s, j.pos, j.list) && (j.matched.Some? ==> Real(ctx, s, j.matched.value))
    && (SkipSafe(ctx) || j.matched.None? ==>
          OnCourse(ctx, s, j.pos, j.list, j.matched) && Value(ctx, s, j) == answer
              && (ctx.lead.Some? && j.seen ==> JustStarted(ctx, s, j)))
  }

  lemma JumpSure(ctx: Setup, s: seq<Byte>, m: Machine, full: seq<Byte>, answer: Option<Hit>)
    requires Sound(ctx) && Sure(ctx, full, m, answer) && s <= full && m.pos <= |s| && m.list != []
    ensures var j := ctx.Jump(s, m);
            && Jumped(ctx, full, j, answer) && j.list != []
            && (j.pos > m.pos && (SkipSafe(ctx) || j.matched.None?) ==> JustStarted(ctx, full, j))
  {
    hide OnCourse, Scan, SkipSafe, LeftBehind, Sound, Setup.StartList, Setup.LooksInitial, Hits, PlaceIn, JustStarted,
        Traced, Real, Running;
    if SkipSafe(ctx) || m.matched.None? { JumpKeeps(ctx, s, m, full); }
    var j := ctx.Jump(s, m);
    if j.list != m.list || j.pos != m.pos {
      var vs := SoundCover(ctx);
      SamePlace(s, full, j.pos);
      StartTraced(ctx, vs, full, j.pos);
    }
  }

  lemma AdvanceSure(ctx: Setup, s: seq<Byte>, j: Machine, full: seq<Byte>, answer: Option<Hit>)
    requires Sound(ctx) && Jumped(ctx, full, j, answer) && s <= full && j.pos < |s| && j.list != []
    ensures Sure(ctx, full, ctx.Advance(s, j), answer) && ctx.Advance(s, j).pos == j.pos + 1
  {
    hide Sound, OnCourse, Running, Scan, JustStarted, Traced, Real, Step, SkipSafe;
    SameSteps(ctx.code, s, full, j.pos, j.list);
    TracedStep(ctx, full, j.pos, j.list);
    if SkipSafe(ctx) || j.matched.None? { AdvanceKeeps(ctx, s, j, full); }
  }

  /** What a call that is the last has found. */
  ghost predicate Settled(ctx: Setup, s: seq<Byte>, matched: Option<Hit>, answer: Option<Hit>) {
    && (matched.Some? ==> Real(ctx, s, matched.value))
    && (SkipSafe(ctx) || matched.None? ==> matched == answer)
  }

  /** The loop over a chunk. */
  lemma {:induction false} FeedSure(ctx: Setup, s: seq<Byte>, eof: bool, m: Machine, full: seq<Byte>,
                                    answer: Option<Hit>)
    requires Sound(ctx) && Sure(ctx, full, m, answer) && s <= full && m.pos <= |s| && (eof ==> full == s)
    ensures var r := ctx.Feed(s, eof, m);
            if eof then Settled(ctx, full, r.matched, answer)
            else Sure(ctx, full, r, answer) && (r.list == [] || r.pos == |s|)
    decreases |s| - m.pos
  {
    hide Sound, Sure, Jumped, Settled, SkipSafe, JustStarted, Setup.Jump, Setup.Advance;
    if !(m.pos < |s| || eof) || m.list == [] {
      if eof { EmptySettled(ctx, full, m, answer); }
    } else {
      var j := ctx.Jump(s, m);
      JumpSure(ctx, s, m, full, answer);
      if j.pos == |s| && m.pos < |s| {
        if eof { JumpSettled(ctx, full, j, answer); }
        JumpedSure(ctx, full, j, answer);
      } else if j.pos == |s| {
        LastSettled(ctx, s, j, answer);
      } else {
        AdvanceSure(ctx, s, j, full, answer);
        FeedSure(ctx, s, eof, ctx.Advance(s, j), full, answer);
      }
    }
  }

  lemma EmptySettled(ctx: Setup, s: seq<Byte>, m: Machine, answer: Option<Hit>)
    requires Sure(ctx, s, m, answer) && m.list == []
    ensures Settled(ctx, s, m.matched, answer)
  {
    hide OnCourse, LeftBehind, SkipSafe, Traced, Real, Step;
    if m.matched.None? { OnCourseShape(ctx, s, m.pos, m.list, m.matched); }
  }

  lemma JumpSettled(ctx: Setup, s: seq<Byte>, j: Machine, answer: Option<Hit>)
    requires Sound(ctx) && Jumped(ctx, s, j, answer) && j.pos == |s|
             && (SkipSafe(ctx) || j.matched.None? ==> JustStarted(ctx, s, j))
    ensures Settled(ctx, s, j.matched, answer)
  {
    hide Sound, OnCourse, SkipSafe, Traced, Real, JustStarted, Scan;
    if SkipSafe(ctx) || j.matched.None? { StartedEnds(ctx, s, j); }
  }

  lemma JumpedSure(ctx: Setup, s: seq<Byte>, j: Machine, answer: Option<Hit>)
    requires Jumped(ctx, s, j, answer) && (SkipSafe(ctx) || j.matched.None? ==> JustStarted(ctx, s, j))
    ensures Sure(ctx, s, j, answer)
  {
    hide OnCourse, SkipSafe, Traced, Real, JustStarted, Scan, Running;
    if SkipSafe(ctx) || j.matched.None? { JustRunning(ctx, s, j); }
  }

  lemma LastSettled(ctx: Setup, s: seq<Byte>, j: Machine, answer: Option<Hit>)
    requires Sound(ctx) && Jumped(ctx, s, j, answer) && j.pos == |s| && j.list != []
    ensures Settled(ctx, s, ctx.Advance(s, j).matched, answer)
  {
    hide Sound, OnCourse, SkipSafe, Traced, Real, JustStarted, Scan, Step;
    TracedStep(ctx, s, j.pos, j.list);
    LastAdvance(ctx, s, j);
  }

  lemma JustRunning(ctx: Setup, s: seq<Byte>, m: Machine)
    requires OnCourse(ctx, s, m.pos, m.list, m.matched) && JustStarted(ctx, s, m)
    ensures Running(ctx, s, m)
  {
    hide OnCourse, LeftBehind;
  }

  lemma LastAdvance(ctx: Setup, s: seq<Byte>, m: Machine)
    requires m.pos == |s| && m.list != []
    ensures ctx.Advance(s, m).matched == Value(ctx, s, m)
  {
  }

  /** One call, for every stream that goes on like this. */
  lemma ExecSure(ctx: Setup, s: seq<Byte>, eof: bool, m: Machine, full: seq<Byte>, answer: Option<Hit>)
    requires Sound(ctx) && Sure(ctx, full, m, answer) && s <= full && m.pos <= |s| && (eof ==> full == s)
    ensures match ctx.Exec(s, eof, m)
            case Matched(h) => Settled(ctx, full, Some(h), answer)
            case Declined => eof && answer == None
            case Again(m') => !eof && m'.pos == |s| && Sure(ctx, full, m', answer)
  {
    hide Sound, Sure, SkipSafe, Setup.Feed, Real;
    var r := ctx.Feed(s, eof, m);
    FeedSure(ctx, s, eof, m, full, answer);
    if !eof && r.list == [] {
      EmptySettled(ctx, full, r, answer);
      EmptyMatched(ctx, full, r, answer);
    }
  }

  lemma EmptyMatched(ctx: Setup, s: seq<Byte>, m: Machine, answer: Option<Hit>)
    requires Sure(ctx, s, m, answer) && m.list == []
    ensures m.matched.Some?
  {
    hide OnCourse, LeftBehind, SkipSafe, Traced, Real, Scan;
    if m.matched.None? { OnCourseShape(ctx, s, m.pos, m.list, m.matched); }
  }

  /** The calls for a stream that arrives in chunks, the last one with `eof`; a
      verdict other than Again ends them. */
  function Calls(ctx: Setup, done: seq<Byte>, chunks: seq<seq<Byte>>, m: Machine): Verdict
    requires m.pos == |done| && chunks != []
    decreases |chunks|
  {
    var s := done + chunks[0];
    if |chunks| == 1 then ctx.Exec(s, true, m)
    else
      match ctx.Exec(s, false, m)
      case Again(m') => if m'.pos == |s| then Calls(ctx, s, chunks[1..], m') else Again(m')
      case verdict => verdict
  }

  /** An answer as a verdict at the end of the stream. */
  function Final(answer: Option<Hit>): Verdict {
    if answer.Some? then Matched(answer.value) else Declined
  }

  /** What the calls end with. */
  lemma {:induction false} CallsSure(ctx: Setup, done: seq<Byte>, chunks: seq<seq<Byte>>, m: Machine,
                                     answer: Option<Hit>)
    requires Sound(ctx) && m.pos == |done| && chunks != [] && Sure(ctx, done + Joined(chunks), m, answer)
    ensures match Calls(ctx, done, chunks, m)
            case Matched(h) => Settled(ctx, done + Joined(chunks), Some(h), answer)
            case Declined => answer == None
            case Again(_) => false
    decreases |chunks|
  {
    hide Sound, Sure, Settled, Setup.Exec;
    var s, full := done + chunks[0], done + Joined(chunks);
    assert full == s + Joined(chunks[1..]);
    if |chunks| == 1 {
      assert chunks[1..] == [] && full == s;
      ExecSure(ctx, s, true, m, full, answer);
    } else {
      ExecSure(ctx, s, false, m, full, answer);
      match ctx.Exec(s, false, m) {
        case Again(m') => CallsSure(ctx, s, chunks[1..], m', answer);
        case _ =>
      }
    }
  }

  lemma RunningSure(ctx: Setup, s: seq<Byte>, m: Machine)
    requires Running(ctx, s, m)
    ensures Sure(ctx, s, m, Value(ctx, s, m))
  {
    hide OnCourse, LeftBehind, Traced, Real, Scan, SkipSafe;
    OnCourseTraced(ctx, s, m.pos, m.list, m.matched);
    assert m.pos <= |s| by { OnCoursePos(ctx, s, m.pos, m.list, m.matched); }
  }

  lemma SureRuns(ctx: Setup, s: seq<Byte>, m: Machine, answer: Option<Hit>)
    requires Sure(ctx, s, m, answer) && SkipSafe(ctx)
    ensures Running(ctx, s, m) && OnCourse(ctx, s, m.pos, m.list, m.matched) && Value(ctx, s, m) == answer
  {
    hide OnCourse, LeftBehind, Traced, Real, Scan, SkipSafe;
  }

  lemma OnCoursePos(ctx: Setup, s: seq<Byte>, p: nat, list: seq<Thread>, matched: Option<Hit>)
    requires OnCourse(ctx, s, p, list, matched)
    ensures p <= |s|
  {
  }

  lemma FreshRunning(ctx: Setup, s: seq<Byte>)
    requires Sound(ctx)
    ensures Running(ctx, s, ctx.Fresh()) && Value(ctx, s, ctx.Fresh()) == Answer(ctx.code, s, ctx.slots)
  {
    hide SearchInv, Begin, Add, Scan;
    assert PlaceIn(s, 0) == Place(0, true, true);
    var starts := BeginTracked(ctx.code, s, ctx.slots);
  }

  /** The streaming theorem: however a stream is cut into chunks, empty ones
      included, the calls end with the id and captures of one search of the whole
      stream that never skips. */
  lemma ChunksDoNotMatter(ctx: Setup, chunks: seq<seq<Byte>>)
    requires Sound(ctx) && SkipSafe(ctx) && chunks != []
    ensures Calls(ctx, [], chunks, ctx.Fresh()) == Final(Answer(ctx.code, Joined(chunks), ctx.slots))
  {
    hide Sound, SkipSafe, Running, Answer, Calls, Scan, Joined, Sure, Real;
    assert [] + Joined(chunks) == Joined(chunks);
    FreshRunning(ctx, Joined(chunks));
    RunningSure(ctx, Joined(chunks), ctx.Fresh());
    CallsSure(ctx, [], chunks, ctx.Fresh(), Answer(ctx.code, Joined(chunks), ctx.slots));
  }
}
