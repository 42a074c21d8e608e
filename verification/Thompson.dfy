/** The Thompson VM (src/sregex/sre_vm_thompson.c): a set simulation that marks
    visited instructions with a tag and is fed the stream chunk by chunk. */
module Thompson {
  import opened Regexes
  import opened Bytecode
  import opened Programs
  import opened Finite

  /** Instructions that wait on a thread list; the others are followed at once. */
  predicate Listed(inst: Inst) {
    inst.Consuming() || inst.Match?
  }

  /** Every target of an instruction that can be met is inside the code. */
  ghost predicate WellTargeted(code: Code) {
    && Live(code, 0)
    && forall pc: nat, t: nat :: Live(code, pc) && Target(code[pc], pc, t) ==> Live(code, t)
  }

  /** Some run from the start of the stream is at `pc` after `p` bytes. */
  ghost predicate At(code: Code, s: seq<Byte>, p: nat, pc: nat) {
    Reaches(code, s, Conf(0, 0, []), Conf(pc, p, []))
  }

  /** `w` follows `v` without consuming at position `p`. */
  predicate Eps(code: Code, s: seq<Byte>, p: nat, v: nat, w: nat) {
    v < |code| && !code[v].Consuming() && Conf(w, p, []) in Next(code, s, Conf(v, p, []))
  }

  function Stamped(tags: seq<nat>, tag: nat): set<nat> {
    set k | 0 <= k < |tags| && tags[k] == tag
  }

  lemma AtStep(code: Code, s: seq<Byte>, p: nat, v: nat, q: nat, w: nat)
    requires At(code, s, p, v) && v < |code| && Conf(w, q, []) in Next(code, s, Conf(v, p, []))
    ensures At(code, s, q, w)
  {
    var n: nat :| Run(code, s, 0, |code|, Conf(0, 0, []), Conf(v, p, []), n);
    assert Moves(code, s, Conf(v, p, []), Conf(w, q, []));
    assert Run(code, s, 0, |code|, Conf(w, q, []), Conf(w, q, []), 0);
    assert Run(code, s, 0, |code|, Conf(v, p, []), Conf(w, q, []), 1);
    RunAppend(code, s, 0, |code|, Conf(0, 0, []), Conf(v, p, []), Conf(w, q, []), n, 1);
  }

  /** A set of visited instructions that leaves no move open, except from those
      already visited in `before`. */
  ghost predicate ClosedSince(code: Code, s: seq<Byte>, p: nat, before: set<nat>, after: set<nat>) {
    && before <= after
    && forall v, w :: v in after && v !in before && Eps(code, s, p, v, w) ==> w in after
  }

  ghost predicate AllAt(code: Code, s: seq<Byte>, p: nat, vs: set<nat>) {
    forall v :: v in vs ==> v < |code| && At(code, s, p, v)
  }

  lemma ClosedTwice(code: Code, s: seq<Byte>, p: nat, a: set<nat>, b: set<nat>, c: set<nat>)
    requires ClosedSince(code, s, p, a, b) && ClosedSince(code, s, p, b, c)
    ensures ClosedSince(code, s, p, a, c)
  {
    hide Eps;
  }

  lemma AllAtTwice(code: Code, s: seq<Byte>, p: nat, a: set<nat>, b: set<nat>, c: set<nat>)
    requires AllAt(code, s, p, b - a) && AllAt(code, s, p, c - b)
    ensures AllAt(code, s, p, c - a)
  {
    hide At;
    forall v | v in c - a ensures v < |code| && At(code, s, p, v) {
      assert if v in b then v in b - a else v in c - b;
    }
  }

  lemma LiveFirst(code: Code)
    requires WellTargeted(code)
    ensures Live(code, 0)
  {
  }

  lemma WaitsHere(code: Code, s: seq<Byte>, p: nat, pc: nat)
    requires pc < |code| && Listed(code[pc])
    ensures forall w :: !Eps(code, s, p, pc, w)
  {
  }

  /** The list holds each visited instruction that waits, exactly once. */
  ghost predicate Lists(code: Code, l: seq<nat>, visited: set<nat>) {
    && (forall v: nat :: v in l <==> v in visited && v < |code| && Listed(code[v]))
    && (forall i, j :: 0 <= i < j < |l| ==> l[i] != l[j])
  }

  lemma ListsStamp(code: Code, l: seq<nat>, visited: set<nat>, pc: nat)
    requires Lists(code, l, visited) && pc < |code| && pc !in visited
    ensures Listed(code[pc]) ==> Lists(code, l + [pc], visited + {pc})
    ensures !Listed(code[pc]) ==> Lists(code, l, visited + {pc})
  {
  }

  lemma EpsTargets(code: Code, s: seq<Byte>, p: nat, pc: nat)
    requires pc < |code|
    ensures forall w :: Eps(code, s, p, pc, w) <==>
            match code[pc]
            case Jmp(x) => w == x
            case Split(x, y) => w == x || w == y
            case Save(_) => w == pc + 1
            case Look(a) => Holds(a, s, p) && w == pc + 1
            case _ => false
  {
    match code[pc]
    case Split(x, y) => assert Next(code, s, Conf(pc, p, [])) == [Conf(x, p, []), Conf(y, p, [])];
    case _ =>
  }

  lemma BehindHolds(a: Assertion, buffer: seq<Byte>, sp: nat, done: seq<Byte>)
    requires !a.LookAhead() && sp <= |buffer| && (sp == 0 ==> done == [])
    ensures Holds(a, done + buffer, |done| + sp) <==> sp == 0 || (a.Caret? && buffer[sp - 1] == NEWLINE)
  {
  }

  lemma NoneStamped(tags: seq<nat>, tag: nat)
    requires forall k :: 0 <= k < |tags| ==> tags[k] < tag
    ensures Stamped(tags, tag) == {}
  {
  }

  lemma Marking(tags: seq<nat>, tag: nat, pc: nat)
    requires pc < |tags|
    ensures pc in Stamped(tags, tag) <==> tags[pc] == tag
    ensures Stamped(tags[pc := tag], tag) == Stamped(tags, tag) + {pc}
  {
  }

  lemma Nothing(code: Code, s: seq<Byte>, p: nat, visited: set<nat>)
    ensures ClosedSince(code, s, p, visited, visited) && AllAt(code, s, p, visited - visited)
  {
  }

  lemma LiveInside(code: Code, pc: nat)
    requires Live(code, pc)
    ensures pc < |code|
  {
  }

  lemma LooksBehind(code: Code, pc: nat)
    requires CodeLookAheadFree(code) && pc < |code| && code[pc].Look?
    ensures !code[pc].assertion.LookAhead()
  {
  }

  lemma FollowLive(code: Code, s: seq<Byte>, p: nat, pc: nat, t: nat)
    requires WellTargeted(code) && Live(code, pc) && At(code, s, p, pc) && Eps(code, s, p, pc, t)
    ensures Live(code, t) && At(code, s, p, t)
  {
    assert Target(code[pc], pc, t);
    AtStep(code, s, p, pc, p, t);
  }

  /** Once everything behind `pc` is visited, `pc` itself is closed. */
  lemma Finish(code: Code, s: seq<Byte>, p: nat, before: set<nat>, after: set<nat>, pc: nat)
    requires pc < |code| && At(code, s, p, pc)
    requires ClosedSince(code, s, p, before + {pc}, after) && AllAt(code, s, p, after - (before + {pc}))
    requires forall w :: Eps(code, s, p, pc, w) ==> w in after
    ensures ClosedSince(code, s, p, before, after) && AllAt(code, s, p, after - before)
  {
    hide At, Eps;
    forall v | v in after - before
      ensures v < |code| && At(code, s, p, v)
    {
      if v != pc { assert v in after - (before + {pc}); }
    }
  }

  /** There is room on the list for an instruction that is not on it. */
  lemma Room(code: Code, l: seq<nat>, visited: set<nat>, pc: nat)
    requires Lists(code, l, visited) && pc < |code| && pc !in visited
    ensures |l| < |code|
  {
    assert Elements(l) <= UpTo(|code|) - {pc};
    Smaller(Elements(l), UpTo(|code|) - {pc});
  }

  /** A compiled program; `tags` holds the tag field of every instruction. */
  class Program {
    const code: Code
    const tags: array<nat>
    var tag: nat

    ghost predicate Shape() {
      tags.Length == |code| && WellTargeted(code)
    }

    ghost predicate TagsUpTo(t: nat)
      reads tags
    {
      forall k :: 0 <= k < tags.Length ==> tags[k] <= t
    }

    ghost predicate Valid()
      reads this, tags
    {
      Shape() && TagsUpTo(tag)
    }

    constructor (code: Code)
      requires WellTargeted(code)
      ensures Valid() && this.code == code && fresh(tags)
    {
      this.code := code;
      this.tags := new nat[|code|](_ => 0);
      this.tag := 0;
    }
  }

  class ThreadList {
    const threads: array<nat>
    var count: nat

    ghost predicate Valid()
      reads this, threads
    {
      count <= threads.Length
    }

    ghost function Contents(): seq<nat>
      requires Valid()
      reads this, threads
    {
      threads[..count]
    }

    constructor (size: nat)
      ensures Valid() && Contents() == [] && threads.Length == size && fresh(threads)
    {
      threads := new nat[size];
      count := 0;
    }

    method Append(pc: nat)
      requires Valid() && count < threads.Length
      modifies this, threads
      ensures Valid() && Contents() == old(Contents()) + [pc]
    {
      threads[count] := pc;
      count := count + 1;
    }
  }

  /** Follows everything that can be reached from `pc` without consuming and
      puts what waits on the list.  `buffer` is the current chunk, `done` the
      stream before it. */
  method AddThread(prog: Program, tag: nat, l: ThreadList, pc: nat, buffer: seq<Byte>, sp: nat, ghost done: seq<Byte>)
    requires prog.Shape() && CodeLookAheadFree(prog.code)
    requires l.Valid() && l.threads.Length == |prog.code| && l.threads != prog.tags
    requires Lists(prog.code, l.Contents(), Stamped(prog.tags[..], tag))
    requires sp <= |buffer| && (sp == 0 ==> done == [])
    requires Live(prog.code, pc) && At(prog.code, done + buffer, |done| + sp, pc)
    modifies prog.tags, l, l.threads
    ensures l.Valid() && Lists(prog.code, l.Contents(), Stamped(prog.tags[..], tag))
    ensures pc in Stamped(prog.tags[..], tag) && old(Stamped(prog.tags[..], tag)) <= Stamped(prog.tags[..], tag)
    ensures ClosedSince(prog.code, done + buffer, |done| + sp, old(Stamped(prog.tags[..], tag)),
                        Stamped(prog.tags[..], tag))
    ensures AllAt(prog.code, done + buffer, |done| + sp, Stamped(prog.tags[..], tag) - old(Stamped(prog.tags[..], tag)))
    ensures forall k :: 0 <= k < prog.tags.Length ==> prog.tags[k] == old(prog.tags[k]) || prog.tags[k] == tag
    decreases UpTo(|prog.code|) - Stamped(prog.tags[..], tag), 0
  {
    hide ClosedSince, AllAt, At, Lists, WellTargeted, Live, CodeLookAheadFree, Stamped;
    LiveInside(prog.code, pc);
    Marking(prog.tags[..], tag, pc);
    ghost var code, s, p := prog.code, done + buffer, |done| + sp;
    ghost var before, l0 := Stamped(prog.tags[..], tag), l.Contents();
    Nothing(code, s, p, before);
    if prog.tags[pc] == tag {
      return;
    }
    prog.tags[pc] := tag;
    assert prog.tags[..] == old(prog.tags[..])[pc := tag];
    ListsStamp(code, l0, before, pc);
    if Listed(prog.code[pc]) {
      Room(code, l0, before, pc);
      l.Append(pc);
      WaitsHere(code, s, p, pc);
      Nothing(code, s, p, before + {pc});
    } else {
      Follow(prog, tag, l, pc, buffer, sp, done);
    }
    Finish(code, s, p, before, Stamped(prog.tags[..], tag), pc);
  }

  /** The instruction at `pc`, which does not wait, is left behind. */
  method Follow(prog: Program, tag: nat, l: ThreadList, pc: nat, buffer: seq<Byte>, sp: nat, ghost done: seq<Byte>)
    requires prog.Shape() && CodeLookAheadFree(prog.code)
    requires l.Valid() && l.threads.Length == |prog.code| && l.threads != prog.tags
    requires Lists(prog.code, l.Contents(), Stamped(prog.tags[..], tag))
    requires sp <= |buffer| && (sp == 0 ==> done == [])
    requires Live(prog.code, pc) && At(prog.code, done + buffer, |done| + sp, pc) && !Listed(prog.code[pc])
    modifies prog.tags, l, l.threads
    ensures l.Valid() && Lists(prog.code, l.Contents(), Stamped(prog.tags[..], tag))
    ensures old(Stamped(prog.tags[..], tag)) <= Stamped(prog.tags[..], tag)
    ensures ClosedSince(prog.code, done + buffer, |done| + sp, old(Stamped(prog.tags[..], tag)),
                        Stamped(prog.tags[..], tag))
    ensures AllAt(prog.code, done + buffer, |done| + sp, Stamped(prog.tags[..], tag) - old(Stamped(prog.tags[..], tag)))
    ensures forall w :: Eps(prog.code, done + buffer, |done| + sp, pc, w) ==> w in Stamped(prog.tags[..], tag)
    ensures forall k :: 0 <= k < prog.tags.Length ==> prog.tags[k] == old(prog.tags[k]) || prog.tags[k] == tag
    decreases UpTo(|prog.code|) - Stamped(prog.tags[..], tag), 1
  {
    hide ClosedSince, AllAt, At, Holds, Eps, Lists, WellTargeted, Live, CodeLookAheadFree, Stamped;
    LiveInside(prog.code, pc);
    ghost var code, s, p := prog.code, done + buffer, |done| + sp;
    ghost var before := Stamped(prog.tags[..], tag);
    EpsTargets(code, s, p, pc);
    match prog.code[pc]
    case Jmp(x) =>
      FollowLive(code, s, p, pc, x);
      AddThread(prog, tag, l, x, buffer, sp, done);
    case Split(x, y) =>
      FollowLive(code, s, p, pc, x);
      AddThread(prog, tag, l, x, buffer, sp, done);
      ghost var middle := Stamped(prog.tags[..], tag);
      FollowLive(code, s, p, pc, y);
      AddThread(prog, tag, l, y, buffer, sp, done);
      ClosedTwice(code, s, p, before, middle, Stamped(prog.tags[..], tag));
      AllAtTwice(code, s, p, before, middle, Stamped(prog.tags[..], tag));
    case Save(_) =>
      FollowLive(code, s, p, pc, pc + 1);
      AddThread(prog, tag, l, pc + 1, buffer, sp, done);
    case Look(a) =>
      var holds := if a == BigA then sp == 0 else sp == 0 || buffer[sp - 1] == NEWLINE;
      LooksBehind(code, pc);
      BehindHolds(a, buffer, sp, done);
      Nothing(code, s, p, before);
      if holds {
        FollowLive(code, s, p, pc, pc + 1);
        AddThread(prog, tag, l, pc + 1, buffer, sp, done);
      }
  }

  /* What the lists mean. */

  /** The list holds exactly the waiting instructions that runs over the first
      `p` bytes lead to. */
  ghost predicate Front(code: Code, s: seq<Byte>, p: nat, l: seq<nat>) {
    && (forall v: nat :: v in l <==> v < |code| && Listed(code[v]) && At(code, s, p, v))
    && (forall i, j :: 0 <= i < j < |l| ==> l[i] != l[j])
  }

  ghost predicate AcceptsBefore(code: Code, s: seq<Byte>, n: nat) {
    exists q: nat :: q < n && Accepting(code, s, q)
  }

  lemma AcceptingIsAt(code: Code, s: seq<Byte>, p: nat)
    ensures Accepting(code, s, p) <==> exists v: nat :: v < |code| && code[v].Match? && At(code, s, p, v)
  {
    if d: Conf :| d.pos == p && AtMatch(code, d) && Reaches(code, s, Conf(0, 0, []), d) {
      var n: nat :| Run(code, s, 0, |code|, Conf(0, 0, []), d, n);
      RunBounds(code, s, 0, |code|, Conf(0, 0, []), d, n);
      assert d == Conf(d.pc, p, []) && At(code, s, p, d.pc);
    }
    if v: nat :| v < |code| && code[v].Match? && At(code, s, p, v) {
      assert AtMatch(code, Conf(v, p, []));
    }
  }

  lemma FrontAccepts(code: Code, s: seq<Byte>, p: nat, l: seq<nat>)
    requires Front(code, s, p, l)
    ensures Accepting(code, s, p) <==> exists i :: 0 <= i < |l| && l[i] < |code| && code[l[i]].Match?
  {
    AcceptingIsAt(code, s, p);
    if v: nat :| v < |code| && code[v].Match? && At(code, s, p, v) {
      assert v in l;
    }
    if i :| 0 <= i < |l| && l[i] < |code| && code[l[i]].Match? {
      assert l[i] in l;
    }
  }

  /** The last step into (v, q): from a waiting instruction one byte before, or
      from an instruction at the same position. */
  lemma LastStep(code: Code, s: seq<Byte>, v: nat, q: nat, n: nat) returns (u: nat, o: nat)
    requires n > 0 && Run(code, s, 0, |code|, Conf(0, 0, []), Conf(v, q, []), n)
    ensures u < |code| && Run(code, s, 0, |code|, Conf(0, 0, []), Conf(u, o, []), n - 1)
    ensures (o == q && Eps(code, s, q, u, v))
            || (o + 1 == q && code[u].Consuming() && o < |s| && code[u].Accepts(s[o]) && v == u + 1)
  {
    var b := RunLast(code, s, 0, |code|, Conf(0, 0, []), Conf(v, q, []), n);
    RunBounds(code, s, 0, |code|, Conf(0, 0, []), b, n - 1);
    assert b == Conf(b.pc, b.pos, []);
    u, o := b.pc, b.pos;
  }

  /** A closed set that contains where the front leads contains everything that
      can be reached at the next position. */
  lemma {:induction false} NextComplete(code: Code, s: seq<Byte>, p: nat, front: seq<nat>, visited: set<nat>, v: nat,
                                        n: nat)
    requires Front(code, s, p, front) && p < |s| && ClosedSince(code, s, p + 1, {}, visited)
    requires forall u :: u in front && code[u].Consuming() && code[u].Accepts(s[p]) ==> u + 1 in visited
    requires Run(code, s, 0, |code|, Conf(0, 0, []), Conf(v, p + 1, []), n)
    ensures v in visited
    decreases n
  {
    var u, o := LastStep(code, s, v, p + 1, n);
    if o == p + 1 {
      NextComplete(code, s, p, front, visited, u, n - 1);
    } else {
      assert At(code, s, p, u);
    }
  }

  lemma {:induction false} FirstComplete(code: Code, s: seq<Byte>, visited: set<nat>, v: nat, n: nat)
    requires ClosedSince(code, s, 0, {}, visited) && 0 in visited
    requires Run(code, s, 0, |code|, Conf(0, 0, []), Conf(v, 0, []), n)
    ensures v in visited
    decreases n
  {
    if n > 0 {
      var u, o := LastStep(code, s, v, 0, n);
      FirstComplete(code, s, visited, u, n - 1);
    }
  }

  lemma FrontFirst(code: Code, s: seq<Byte>, visited: set<nat>, l: seq<nat>)
    requires ClosedSince(code, s, 0, {}, visited) && 0 in visited && AllAt(code, s, 0, visited)
             && Lists(code, l, visited)
    ensures Front(code, s, 0, l)
  {
    forall v: nat | v < |code| && At(code, s, 0, v)
      ensures v in visited
    {
      var n: nat :| Run(code, s, 0, |code|, Conf(0, 0, []), Conf(v, 0, []), n);
      FirstComplete(code, s, visited, v, n);
    }
  }

  lemma FrontNext(code: Code, s: seq<Byte>, p: nat, front: seq<nat>, visited: set<nat>, l: seq<nat>)
    requires Front(code, s, p, front) && p < |s| && ClosedSince(code, s, p + 1, {}, visited)
    requires forall u :: u in front && code[u].Consuming() && code[u].Accepts(s[p]) ==> u + 1 in visited
    requires AllAt(code, s, p + 1, visited) && Lists(code, l, visited)
    ensures Front(code, s, p + 1, l)
  {
    forall v: nat | v < |code| && At(code, s, p + 1, v)
      ensures v in visited
    {
      var n: nat :| Run(code, s, 0, |code|, Conf(0, 0, []), Conf(v, p + 1, []), n);
      NextComplete(code, s, p, front, visited, v, n);
    }
  }

  /** More input does not change where runs over the old input lead. */
  lemma AtPrefix(code: Code, s: seq<Byte>, t: seq<Byte>, p: nat, v: nat)
    requires CodeLookAheadFree(code) && p <= |s|
    ensures At(code, s, p, v) <==> At(code, s + t, p, v)
  {
    if n: nat :| Run(code, s, 0, |code|, Conf(0, 0, []), Conf(v, p, []), n) {
      RunPrefix(code, s, t, 0, |code|, Conf(0, 0, []), Conf(v, p, []), n);
    }
    if n: nat :| Run(code, s + t, 0, |code|, Conf(0, 0, []), Conf(v, p, []), n) {
      RunPrefix(code, s, t, 0, |code|, Conf(0, 0, []), Conf(v, p, []), n);
    }
  }

  lemma FrontPrefix(code: Code, s: seq<Byte>, t: seq<Byte>, p: nat, l: seq<nat>)
    requires CodeLookAheadFree(code) && p <= |s| && Front(code, s, p, l)
    ensures Front(code, s + t, p, l)
  {
    forall v: nat ensures At(code, s, p, v) <==> At(code, s + t, p, v) { AtPrefix(code, s, t, p, v); }
  }

  lemma AcceptsPrefix(code: Code, s: seq<Byte>, t: seq<Byte>, n: nat)
    requires CodeLookAheadFree(code) && n <= |s| + 1
    ensures AcceptsBefore(code, s, n) <==> AcceptsBefore(code, s + t, n)
  {
    forall q: nat | q < n
      ensures Accepting(code, s, q) <==> Accepting(code, s + t, q)
    {
      AcceptingIsAt(code, s, q);
      AcceptingIsAt(code, s + t, q);
      forall v: nat ensures At(code, s, q, v) <==> At(code, s + t, q, v) { AtPrefix(code, s, t, q, v); }
    }
  }

  /** To get past position `p` a run has to be at a waiting instruction there. */
  lemma {:induction false} Crossing(code: Code, s: seq<Byte>, v: nat, q: nat, p: nat, n: nat) returns (u: nat)
    requires p < q && Run(code, s, 0, |code|, Conf(0, 0, []), Conf(v, q, []), n)
    ensures u < |code| && code[u].Consuming() && At(code, s, p, u)
    decreases n
  {
    var w, o := LastStep(code, s, v, q, n);
    if o == p {
      u := w;
    } else {
      u := Crossing(code, s, w, o, p, n - 1);
    }
  }

  /** Whatever waits later comes from something that waits now. */
  lemma StillWaiting(code: Code, s: seq<Byte>, l: seq<nat>, p: nat, q: nat, v: nat)
    requires Front(code, s, p, l) && p <= q
    requires v < |code| && Listed(code[v]) && At(code, s, q, v)
    ensures l != []
  {
    if q == p {
      assert v in l;
    } else {
      var n: nat :| Run(code, s, 0, |code|, Conf(0, 0, []), Conf(v, q, []), n);
      var u := Crossing(code, s, v, q, p, n);
      assert u in l;
    }
  }

  /** An empty list stays empty and finds nothing. */
  lemma NothingLeft(code: Code, s: seq<Byte>, p: nat, q: nat)
    requires Front(code, s, p, []) && p <= q
    ensures Front(code, s, q, []) && !Accepting(code, s, q)
  {
    AcceptingIsAt(code, s, q);
    forall v: nat | v < |code| && Listed(code[v])
      ensures !At(code, s, q, v)
    {
      if At(code, s, q, v) { StillWaiting(code, s, [], p, q, v); }
    }
  }

  /** Runs from a live instruction only meet live instructions. */
  lemma {:induction false} RunFromLive(code: Code, s: seq<Byte>, lo: nat, c: Conf, d: Conf, n: nat)
    requires WellTargeted(code) && Live(code, c.pc) && Run(code, s, lo, |code|, c, d, n)
    ensures Live(code, d.pc)
    decreases n
  {
    hide Run, Live;
    if n == 0 {
      RunNothing(code, s, lo, c, d);
    } else {
      var c' := RunFirst(code, s, lo, c, d, n);
      MoveTargets(code, s, c, c');
      RunFromLive(code, s, lo, c', d, n - 1);
    }
  }

  lemma RunNothing(code: Code, s: seq<Byte>, lo: nat, c: Conf, d: Conf)
    requires Run(code, s, lo, |code|, c, d, 0)
    ensures c == d
  {
  }

  lemma RunFirst(code: Code, s: seq<Byte>, lo: nat, c: Conf, d: Conf, n: nat) returns (c': Conf)
    requires n > 0 && Run(code, s, lo, |code|, c, d, n)
    ensures c.pc < |code| && Moves(code, s, c, c') && Run(code, s, lo, |code|, c', d, n - 1)
  {
    c' :| Moves(code, s, c, c') && Run(code, s, lo, |code|, c', d, n - 1);
  }

  lemma MoveTargets(code: Code, s: seq<Byte>, c: Conf, d: Conf)
    requires c.pc < |code| && Moves(code, s, c, d)
    ensures Target(code[c.pc], c.pc, d.pc)
  {
  }

  /** Consuming leads from a waiting instruction to one at the next position. */
  lemma Consumed(code: Code, s: seq<Byte>, p: nat, v: nat)
    requires WellTargeted(code) && v < |code| && At(code, s, p, v)
    requires p < |s| && code[v].Consuming() && code[v].Accepts(s[p])
    ensures Live(code, v + 1) && At(code, s, p + 1, v + 1)
  {
    var n: nat :| Run(code, s, 0, |code|, Conf(0, 0, []), Conf(v, p, []), n);
    RunFromLive(code, s, 0, Conf(0, 0, []), Conf(v, p, []), n);
    assert Target(code[v], v, v + 1);
    assert Next(code, s, Conf(v, p, [])) == [Conf(v + 1, p + 1, [])];
    AtStep(code, s, p, v, p + 1, v + 1);
  }

  /** The part of a step that has been done: `visited` is closed, can be
      reached, and contains where the first `i` threads lead. */
  ghost predicate Progress(code: Code, s: seq<Byte>, p: nat, front: seq<nat>, i: nat, visited: set<nat>) {
    && i <= |front|
    && ClosedSince(code, s, p + 1, {}, visited) && AllAt(code, s, p + 1, visited)
    && forall k :: 0 <= k < i ==>
         && front[k] < |code| && !code[front[k]].Match?
         && (p < |s| && code[front[k]].Consuming() && code[front[k]].Accepts(s[p]) ==> front[k] + 1 in visited)
  }

  lemma ProgressStep(code: Code, s: seq<Byte>, p: nat, front: seq<nat>, i: nat, before: set<nat>, after: set<nat>)
    requires Progress(code, s, p, front, i, before) && i < |front| && p < |s|
    requires front[i] < |code| && !code[front[i]].Match? && front[i] + 1 in after
    requires ClosedSince(code, s, p + 1, before, after) && AllAt(code, s, p + 1, after - before)
    ensures Progress(code, s, p, front, i + 1, after)
  {
    forall v | v in after ensures v < |code| && At(code, s, p + 1, v) {
      if v !in before { assert v in after - before; }
    }
  }

  lemma StartStep(code: Code, s: seq<Byte>, p: nat, front: seq<nat>)
    ensures Lists(code, [], {}) && Progress(code, s, p, front, 0, {})
  {
  }

  lemma ProgressDone(code: Code, s: seq<Byte>, p: nat, front: seq<nat>, visited: set<nat>, l: seq<nat>)
    requires Front(code, s, p, front) && Progress(code, s, p, front, |front|, visited) && Lists(code, l, visited)
    ensures !Accepting(code, s, p)
    ensures p < |s| ==> Front(code, s, p + 1, l)
  {
    FrontAccepts(code, s, p, front);
    if p < |s| { FrontNext(code, s, p, front, visited, l); }
  }

  lemma StartHere(code: Code, s: seq<Byte>)
    ensures At(code, s, 0, 0) && Lists(code, [], {})
  {
    assert Run(code, s, 0, |code|, Conf(0, 0, []), Conf(0, 0, []), 0);
  }

  lemma AllAtFrom(code: Code, s: seq<Byte>, p: nat, visited: set<nat>)
    requires AllAt(code, s, p, visited - {})
    ensures AllAt(code, s, p, visited)
  {
    assert visited - {} == visited;
  }

  lemma Exhausted(code: Code, s: seq<Byte>, p: nat, end: nat)
    requires Front(code, s, p, []) && !AcceptsBefore(code, s, p) && p <= end
    ensures !AcceptsBefore(code, s, end)
    ensures p <= |s| ==> Front(code, s, |s|, [])
  {
    forall q: nat | p <= q ensures Front(code, s, q, []) && !Accepting(code, s, q) { NothingLeft(code, s, p, q); }
  }

  lemma OneMore(code: Code, s: seq<Byte>, p: nat)
    ensures AcceptsBefore(code, s, p + 1) <==> AcceptsBefore(code, s, p) || Accepting(code, s, p)
  {
  }

  lemma More(code: Code, s: seq<Byte>, p: nat, end: nat)
    requires AcceptsBefore(code, s, p) && p <= end
    ensures AcceptsBefore(code, s, end)
  {
  }

  /* The machine. */

  datatype Status = OK | DECLINED | AGAIN

  /** The test of IN and NOTIN: scan the ranges until one contains the byte. */
  method TestRanges(ranges: seq<Range>, c: Byte) returns (found: bool)
    ensures found <==> InRanges(ranges, c)
  {
    found := false;
    var j := 0;
    while j < |ranges|
      invariant 0 <= j <= |ranges|
      invariant forall k :: 0 <= k < j ==> !(ranges[k].from <= c <= ranges[k].to)
    {
      if c >= ranges[j].from && c <= ranges[j].to { return true; }
      j := j + 1;
    }
  }

  /** Whether a waiting instruction consumes the byte at `sp`. */
  method Consumes(inst: Inst, input: seq<Byte>, sp: nat) returns (r: bool)
    requires sp <= |input|
    ensures r <==> inst.Consuming() && sp < |input| && inst.Accepts(input[sp])
  {
    r := false;
    if sp == |input| { return; }
    match inst
    case In(rs) => r := TestRanges(rs, input[sp]);
    case NotIn(rs) =>
      var found := TestRanges(rs, input[sp]);
      r := !found;
    case Char(ch) => r := input[sp] == ch;
    case Any => r := true;
    case _ =>
  }

  class Context {
    const program: Program
    var tag: nat
    var firstBuf: bool
    var current: ThreadList
    var next: ThreadList
    ghost var done: seq<Byte>   // the stream consumed by earlier calls

    ghost predicate Separate()
      reads this
    {
      && current != next && current.threads != next.threads
      && current.threads != program.tags && next.threads != program.tags
      && current.threads.Length == |program.code| == next.threads.Length
    }

    ghost predicate Valid()
      reads this, program, program.tags, current, current.threads, next, next.threads
    {
      && program.Valid() && CodeLookAheadFree(program.code) && Separate() && current.Valid() && next.Valid()
      && next.Contents() == []
      && program.tag <= tag && (firstBuf ==> program.tag < tag && current.Contents() == [] && done == [])
      && (!firstBuf ==> Front(program.code, done, |done|, current.Contents()))
      && !AcceptsBefore(program.code, done, |done|)
    }

    constructor (program: Program)
      requires program.Valid() && CodeLookAheadFree(program.code)
      ensures Valid() && done == [] && this.program == program && fresh(current) && fresh(current.threads)
      ensures fresh(next) && fresh(next.threads) && firstBuf
    {
      this.program := program;
      current := new ThreadList(|program.code|);
      next := new ThreadList(|program.code|);
      tag := program.tag + 1;
      firstBuf := true;
      done := [];
    }
  
    /** One thread: at a MATCH the machine stops, a byte that is consumed leads
        on to `nlist`. */
    method RunThread(nlist: ThreadList, pc: nat, input: seq<Byte>, sp: nat, ghost done: seq<Byte>,
                     ghost front: seq<nat>, ghost i: nat)
      returns (matched: bool)
      requires program.Shape() && CodeLookAheadFree(program.code)
      requires nlist.Valid() && nlist.threads != program.tags && nlist.threads.Length == |program.code|
      requires sp <= |input| && Front(program.code, done + input, |done| + sp, front) && i < |front| && front[i] == pc
      requires Lists(program.code, nlist.Contents(), Stamped(program.tags[..], tag))
      requires Progress(program.code, done + input, |done| + sp, front, i, Stamped(program.tags[..], tag))
      modifies program.tags, nlist, nlist.threads
      ensures nlist.Valid()
      ensures matched ==> Accepting(program.code, done + input, |done| + sp)
      ensures !matched ==> Lists(program.code, nlist.Contents(), Stamped(program.tags[..], tag))
      ensures !matched ==>
              Progress(program.code, done + input, |done| + sp, front, i + 1, Stamped(program.tags[..], tag))
      ensures matched || sp == |input| ==> nlist.Contents() == old(nlist.Contents())
      ensures forall k :: 0 <= k < program.tags.Length ==> program.tags[k] == old(program.tags[k])
                                                           || program.tags[k] == tag
    {
      hide ClosedSince, AllAt, At, Lists, WellTargeted, Live, CodeLookAheadFree, Accepting, Stamped;
      ghost var code, s, p := program.code, done + input, |done| + sp;
      assert pc in front;
      if program.code[pc].Match? {
        FrontAccepts(code, s, p, front);
        return true;
      }
      var consumes := Consumes(program.code[pc], input, sp);
      if consumes {
        ghost var before := Stamped(program.tags[..], tag);
        Consumed(code, s, p, pc);
        AddThread(program, tag, nlist, pc + 1, input, sp + 1, done);
        ProgressStep(code, s, p, front, i, before, Stamped(program.tags[..], tag));
      }
      return false;
    }

    /** One position: every thread of `clist` in turn, what it leads to going to
        `nlist`; stops at a MATCH. */
    method Step(clist: ThreadList, nlist: ThreadList, input: seq<Byte>, sp: nat, ghost done: seq<Byte>)
        returns (matched: bool)
      requires program.Shape() && CodeLookAheadFree(program.code) && tag > 0 && program.TagsUpTo(tag - 1)
      requires clist != nlist && clist.threads != nlist.threads
      requires clist.threads != program.tags && nlist.threads != program.tags
      requires nlist.threads.Length == |program.code| && clist.Valid() && nlist.Valid()
      requires nlist.Contents() == [] && sp <= |input|
      requires Front(program.code, done + input, |done| + sp, clist.Contents())
      modifies program.tags, nlist, nlist.threads
      ensures nlist.Valid() && program.TagsUpTo(tag)
      ensures matched <==> Accepting(program.code, done + input, |done| + sp)
      ensures !matched && sp < |input| ==> Front(program.code, done + input, |done| + sp + 1, nlist.Contents())
      ensures sp == |input| ==> nlist.Contents() == []
    {
      hide ClosedSince, AllAt, At, Lists, WellTargeted, Live, CodeLookAheadFree, Accepting, Progress, Front, Stamped;
      ghost var code, s, p, front := program.code, done + input, |done| + sp, clist.Contents();
      NoneStamped(program.tags[..], tag);
      StartStep(code, s, p, front);
      var i := 0;
      while i < clist.count
        invariant 0 <= i <= clist.count && nlist.Valid()
        invariant clist.Contents() == front
        invariant program.TagsUpTo(tag)
        invariant Lists(code, nlist.Contents(), Stamped(program.tags[..], tag))
        invariant Progress(code, s, p, front, i, Stamped(program.tags[..], tag))
        invariant sp == |input| ==> nlist.Contents() == []
      {
        matched := RunThread(nlist, clist.threads[i], input, sp, done, front, i);
        if matched { return; }
        i := i + 1;
      }
      ProgressDone(code, s, p, front, Stamped(program.tags[..], tag), nlist.Contents());
      return false;
    }
  
    ghost predicate SameLists(a: ThreadList, b: ThreadList)
      reads this
    {
      (current == a && next == b) || (current == b && next == a)
    }

    /** The first call starts the search loop at the start of the stream. */
    method Start(input: seq<Byte>)
      requires Valid() && firstBuf
      modifies this`firstBuf, program.tags, current, current.threads
      ensures !firstBuf && current.Valid() && Front(program.code, input, 0, current.Contents())
      ensures program.TagsUpTo(tag)
    {
      hide ClosedSince, AllAt, At, Lists, WellTargeted, Front, CodeLookAheadFree, Stamped;
      firstBuf := false;
      ghost var code := program.code;
      NoneStamped(program.tags[..], tag);
      assert [] + input == input;
      StartHere(code, input);
      LiveFirst(code);
      AddThread(program, tag, current, 0, input, 0, []);
      AllAtFrom(code, input, 0, Stamped(program.tags[..], tag));
      FrontFirst(code, input, Stamped(program.tags[..], tag), current.Contents());
    }

    /** The main loop: one step for each position of the chunk, the two lists
        changing places after each; at the end of the stream one more. */
    method Feed(a: ThreadList, b: ThreadList, input: seq<Byte>, eof: bool, ghost done: seq<Byte>)
      returns (r: Status, clist: ThreadList, nlist: ThreadList)
      requires program.Shape() && CodeLookAheadFree(program.code) && program.TagsUpTo(tag)
      requires a != b && a.threads != b.threads && a.threads != program.tags && b.threads != program.tags
      requires a.threads.Length == |program.code| == b.threads.Length && a.Valid() && b.Valid()
      requires Front(program.code, done + input, |done|, a.Contents()) && b.Contents() == []
      requires !AcceptsBefore(program.code, done + input, |done|)
      modifies this`tag, program.tags, a, a.threads, b, b.threads
      ensures program.TagsUpTo(tag) && a.Valid() && b.Valid()
      ensures (clist == a && nlist == b) || (clist == b && nlist == a)
      ensures var s := done + input;
              && (r == OK <==> AcceptsBefore(program.code, s, |s| + if eof then 1 else 0))
              && (r == DECLINED ==> eof)
              && (r == AGAIN ==> !eof && Front(program.code, s, |s|, clist.Contents()) && nlist.Contents() == [])
    {
      hide ClosedSince, AllAt, At, Lists, Accepting, Front, AcceptsBefore, Stamped, WellTargeted, CodeLookAheadFree;
      ghost var code, s, base := program.code, done + input, |done|;
      ghost var end := |s| + if eof then 1 else 0;
      r := if eof then DECLINED else AGAIN;
      clist, nlist := a, b;
      var sp := 0;
      while sp < |input| || (eof && sp == |input|)
        invariant 0 <= sp <= |input| && ((clist == a && nlist == b) || (clist == b && nlist == a))
        invariant program.TagsUpTo(tag) && a.Valid() && b.Valid() && nlist.Contents() == []
        invariant Front(code, s, base + sp, clist.Contents()) && !AcceptsBefore(code, s, base + sp)
        decreases |input| - sp
      {
        if clist.count == 0 {
          assert clist.Contents() == [];
          Exhausted(code, s, base + sp, end);
          return;
        }
        tag := tag + 1;
        var matched := Step(clist, nlist, input, sp, done);
        OneMore(code, s, base + sp);
        if matched {
          More(code, s, base + sp + 1, end);
          r := OK;
          return;
        }
        clist, nlist := nlist, clist;
        nlist.count := 0;
        if sp == |input| { return; }
        sp := sp + 1;
      }
    }

    /** Feeds one chunk to the machine.  The answer is OK if and only if a match
        ends in what the stream has been read up to: strictly before the end of
        the chunk, or at it when the chunk is the last. */
    method Exec(input: seq<Byte>, eof: bool) returns (r: Status)
      requires Valid()
      modifies this, program, program.tags, current, current.threads, next, next.threads
      ensures done == old(done) + input && SameLists(old(current), old(next))
      ensures r == OK <==> AcceptsBefore(program.code, done, |done| + if eof then 1 else 0)
      ensures r == DECLINED ==> eof
      ensures r == AGAIN ==> !eof && Valid() && !firstBuf
    {
      hide ClosedSince, AllAt, At, Lists, Accepting, Front, AcceptsBefore, Stamped, WellTargeted, CodeLookAheadFree;
      ghost var code := program.code;
      AcceptsPrefix(code, done, input, |done|);
      if firstBuf {
        assert done + input == input;
        Start(input);
      } else {
        FrontPrefix(code, done, input, |done|, current.Contents());
      }
      var clist, nlist;
      r, clist, nlist := Feed(current, next, input, eof, done);
      program.tag := tag;
      if r != OK {
        current := clist;
        next := nlist;
      }
      done := done + input;
    }
  }
}
