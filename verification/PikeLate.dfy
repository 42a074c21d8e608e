/** Where the threads of a list and the matches they find started, whatever
    happened before. */
module PikeLate {
  import opened Regexes
  import opened Bytecode
  import opened Programs
  import opened Thompson
  import opened PikeMachine
  import opened PikeStream
  import opened PikePriority
  import opened PikeLeftmost
  import opened PikeSkip

  /** A list whose threads all started at `low` or later. */
  ghost predicate Late(ctx: Setup, s: seq<Byte>, p: nat, list: seq<Thread>, low: nat, high: nat) {
    exists starts :: Tracked(ctx.code, s, ctx.slots, p, list, starts) && forall x :: x in starts ==> low <= x <= high
  }

  /** A match of a run that started between `low` and `high`. */
  ghost predicate LateHit(ctx: Setup, s: seq<Byte>, h: Hit, low: nat, high: nat) {
    exists i: nat :: low <= i <= high && Found(ctx.code, s, ctx.slots, i, h)
  }

  lemma StartLate(ctx: Setup, vs: set<nat>, s: seq<Byte>, q: nat)
    requires Sound(ctx) && Cover(ctx, vs) && q <= |s|
    ensures Late(ctx, s, q, ctx.StartList(PlaceIn(s, q)), q, q + 1)
  {
    var code, n, at := ctx.code, ctx.slots, PlaceIn(s, q);
    var l := Add(code, at, {0}, [], 3, Blank(n), false);
    StartWaiting(ctx, vs, at);
    BegunHere(code, s, n, q);
    AddSound(code, s, n, q, q, {0}, [], 3, Blank(n), false);
    AddWaits(code, at, {0}, [], 3, Blank(n), false);
    hide *;
    assert AllTagged(code, s, n, q, [], [], q) by { NoneTagged(code, s, n, q); }
    var starts := TaggedMore(code, s, n, q, q, [], [], l.threads);
    TaggedTracked(code, s, n, q, l.threads, starts, q);
    LateIs(ctx, s, q, l.threads + [Searcher(n)], starts + [q + 1], q, q + 1);
  }

  lemma NoneTagged(code: Code, s: seq<Byte>, n: nat, q: nat)
    ensures AllTagged(code, s, n, q, [], [], q)
  {
  }

  lemma LateIs(ctx: Setup, s: seq<Byte>, p: nat, list: seq<Thread>, starts: seq<nat>, low: nat, high: nat)
    requires Tracked(ctx.code, s, ctx.slots, p, list, starts) && forall x :: x in starts ==> low <= x <= high
    ensures Late(ctx, s, p, list, low, high)
  {
    hide Tracked;
  }

  lemma LateStep(ctx: Setup, s: seq<Byte>, p: nat, list: seq<Thread>, low: nat, high: nat)
    requires Sound(ctx) && p <= |s| && Late(ctx, s, p, list, low, high)
    ensures var r := Step(ctx.code, s, p, list);
            && (r.hit.Some? ==> LateHit(ctx, s, r.hit.value, low, high))
            && Late(ctx, s, p + 1, r.threads, low, high + p + 2)
  {
    var code, n := ctx.code, ctx.slots;
    var r := Step(code, s, p, list);
    hide Tracked, Building, RunThreads, PlaceIn, ByteAt, Searching, CodeLookAheadFree, WellTargeted, Found, AllServed;
    var starts :| Tracked(code, s, n, p, list, starts) && forall x :: x in starts ==> low <= x <= high;
    BuildFrom(code, s, n, p + 1);
    TrackedLength(code, s, n, p, list, starts);
    var ns, hs := RunTracked(code, s, n, p, list, starts, {}, [], [], 0);
    RanLength(code, s, n, p, list, starts, [], r, ns, hs);
    LateIs(ctx, s, p + 1, r.threads, ns, low, high + p + 2);
  }

  lemma LateWider(ctx: Setup, s: seq<Byte>, h: Hit, low: nat, high: nat, high': nat)
    requires LateHit(ctx, s, h, low, high) && high <= high'
    ensures LateHit(ctx, s, h, low, high')
  {
    hide Found;
  }

  /** Started somewhere. */
  ghost predicate Traced(ctx: Setup, s: seq<Byte>, p: nat, list: seq<Thread>) {
    exists high: nat :: Late(ctx, s, p, list, 0, high)
  }

  /** A match of some run. */
  ghost predicate Real(ctx: Setup, s: seq<Byte>, h: Hit) {
    exists i: nat :: Found(ctx.code, s, ctx.slots, i, h)
  }

  lemma LateTraced(ctx: Setup, s: seq<Byte>, p: nat, list: seq<Thread>, low: nat, high: nat)
    requires Late(ctx, s, p, list, low, high)
    ensures Traced(ctx, s, p, list)
  {
    hide Tracked;
    var starts :| Tracked(ctx.code, s, ctx.slots, p, list, starts) && forall x :: x in starts ==> low <= x <= high;
    LateIs(ctx, s, p, list, starts, 0, high);
  }

  lemma LateReal(ctx: Setup, s: seq<Byte>, h: Hit, low: nat, high: nat)
    requires LateHit(ctx, s, h, low, high)
    ensures Real(ctx, s, h)
  {
    hide Found;
  }

  lemma TracedStep(ctx: Setup, s: seq<Byte>, p: nat, list: seq<Thread>)
    requires Sound(ctx) && p <= |s| && Traced(ctx, s, p, list)
    ensures var r := Step(ctx.code, s, p, list);
            (r.hit.Some? ==> Real(ctx, s, r.hit.value)) && Traced(ctx, s, p + 1, r.threads)
  {
    hide Sound, Late, LateHit, Real, Step;
    var high: nat :| Late(ctx, s, p, list, 0, high);
    LateStep(ctx, s, p, list, 0, high);
    var r := Step(ctx.code, s, p, list);
    LateTraced(ctx, s, p + 1, r.threads, 0, high + p + 2);
    if r.hit.Some? { LateReal(ctx, s, r.hit.value, 0, high); }
  }

  lemma StartTraced(ctx: Setup, vs: set<nat>, s: seq<Byte>, q: nat)
    requires Sound(ctx) && Cover(ctx, vs) && q <= |s|
    ensures Traced(ctx, s, q, ctx.StartList(PlaceIn(s, q))) && ctx.StartList(PlaceIn(s, q)) != []
  {
    hide Sound, Cover, Late, Setup.StartList, PlaceIn;
    StartLate(ctx, vs, s, q);
    StartWaiting(ctx, vs, PlaceIn(s, q));
    LateTraced(ctx, s, q, ctx.StartList(PlaceIn(s, q)), q, q + 1);
  }

  /** While the search is on course its threads and its match are traced. */
  lemma OnCourseTraced(ctx: Setup, s: seq<Byte>, p: nat, list: seq<Thread>, matched: Option<Hit>)
    requires OnCourse(ctx, s, p, list, matched)
    ensures Traced(ctx, s, p, list) && (matched.Some? ==> Real(ctx, s, matched.value))
  {
    hide Tracked, Complete, Bounded, AllBefore, Found;
    var starts, known :| SearchInv(ctx.code, s, ctx.slots, p, list, starts, matched, known);
    var high := Highest(starts);
    LateIs(ctx, s, p, list, starts, 0, high);
  }

  function Highest(starts: seq<nat>): (r: nat)
    ensures forall k :: 0 <= k < |starts| ==> starts[k] <= r
  {
    if starts == [] then 0
    else
      var m, last := Highest(starts[..|starts| - 1]), starts[|starts| - 1];
      if last > m then last else m
  }
}
