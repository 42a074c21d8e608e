/** The path graph of the Thompson JIT (src/sregex/sre_vm_thompson_x64.h:318-489,
    781-972) for programs without assertions: for every instruction that can hold a
    thread, the states its byte leads to; states reached from more than one path get
    a bit by which a step adds them only once. */
module JitGraph {
  import opened Bytecode
  import opened Programs
  import opened Finite
  import opened Thompson

  predicate AssertionFree(code: Code) {
    forall pc :: 0 <= pc < |code| ==> !code[pc].Look?
  }

  /** Without consuming, `pc` leads to `v`. */
  ghost predicate Reach(code: Code, pc: nat, v: nat) {
    Reaches(code, [], Conf(pc, 0, []), Conf(v, 0, []))
  }

  /** What `before` does not hold already of `after` is reached from `pc`, and
      nothing that follows it is missing. */
  ghost predicate Swept(code: Code, pc: nat, before: set<nat>, after: set<nat>) {
    && ClosedSince(code, [], 0, before, after)
    && forall v :: v in after && v !in before ==> v < |code| && Reach(code, pc, v)
  }

  lemma ReachStep(code: Code, pc: nat, v: nat, w: nat)
    requires Reach(code, pc, v) && Eps(code, [], 0, v, w)
    ensures Reach(code, pc, w)
  {
    var n: nat :| Run(code, [], 0, |code|, Conf(pc, 0, []), Conf(v, 0, []), n);
    var d, e := Conf(v, 0, []), Conf(w, 0, []);
    assert Moves(code, [], d, e);
    assert Run(code, [], 0, |code|, e, e, 0);
    assert Run(code, [], 0, |code|, d, e, 1);
    RunAppend(code, [], 0, |code|, Conf(pc, 0, []), d, e, n, 1);
  }

  lemma ReachSelf(code: Code, pc: nat)
    ensures Reach(code, pc, pc)
  {
    assert Run(code, [], 0, |code|, Conf(pc, 0, []), Conf(pc, 0, []), 0);
  }

  lemma SweptSame(code: Code, entry: nat, visited: set<nat>)
    ensures Swept(code, entry, visited, visited)
  {
  }

  lemma SweptTwice(code: Code, entry: nat, a: set<nat>, b: set<nat>, c: set<nat>)
    requires Swept(code, entry, a, b) && Swept(code, entry, b, c)
    ensures Swept(code, entry, a, c)
  {
  }

  /** Once everything behind `pc` is swept, so is `pc`. */
  lemma SweptUp(code: Code, entry: nat, before: set<nat>, after: set<nat>, pc: nat)
    requires pc < |code| && Reach(code, entry, pc) && Swept(code, entry, before + {pc}, after)
    requires forall w :: Eps(code, [], 0, pc, w) ==> w in after
    ensures Swept(code, entry, before, after)
  {
    hide Reach;
  }

  lemma Follows(code: Code, entry: nat, pc: nat)
    requires WellTargeted(code) && Live(code, pc) && Reach(code, entry, pc)
    ensures pc < |code|
    ensures forall w: nat :: Eps(code, [], 0, pc, w) ==> Live(code, w) && w < |code| && Reach(code, entry, w)
  {
    forall w: nat | Eps(code, [], 0, pc, w) ensures Live(code, w) && w < |code| && Reach(code, entry, w) {
      EpsTargets(code, [], 0, pc);
      assert Target(code[pc], pc, w);
      ReachStep(code, entry, pc, w);
    }
  }

  /** Each thread state of `to` is counted once more than in `base`. */
  ghost predicate Tallied(code: Code, dup: seq<int>, base: seq<int>, to: seq<nat>) {
    && |dup| == |base| == |code|
    && forall v :: 0 <= v < |code| ==> dup[v] == base[v] + if code[v].Consuming() && v in to then 1 else 0
  }

  /** A path: the instruction whose thread runs it, and the states it leads to. */
  datatype Path = Path(from: nat, to: seq<nat>)

  /** Where the states of a path from `from` start: behind its byte, or at the start
      of the program. */
  function Entry(from: nat): nat {
    if from == 0 then 0 else from + 1
  }

  /** The path holds each waiting instruction that can be reached, exactly once. */
  ghost predicate IsPath(code: Code, path: Path) {
    exists visited: set<nat> ::
      Entry(path.from) in visited && Swept(code, Entry(path.from), {}, visited) && Lists(code, path.to, visited)
  }

  /** On how many paths a state lies. */
  ghost function Count(paths: seq<Path>, v: nat): nat {
    if paths == [] then 0 else Count(paths[..|paths| - 1], v) + if v in paths[|paths| - 1].to then 1 else 0
  }

  lemma CountMore(paths: seq<Path>, path: Path, v: nat)
    ensures Count(paths + [path], v) == Count(paths, v) + if v in path.to then 1 else 0
  {
    assert (paths + [path])[..|paths|] == paths;
  }

  /** `dup` counts the paths each thread state lies on. */
  ghost predicate Counts(code: Code, dup: seq<int>, paths: seq<Path>) {
    |dup| == |code| && forall v: nat :: v < |code| ==> dup[v] == if code[v].Consuming() then Count(paths, v) else 0
  }

  lemma CountsMore(code: Code, base: seq<int>, dup: seq<int>, paths: seq<Path>, path: Path)
    requires Counts(code, base, paths) && Tallied(code, dup, base, path.to)
    ensures Counts(code, dup, paths + [path])
  {
    forall v: nat | v < |code|
      ensures Count(paths + [path], v) == Count(paths, v) + if v in path.to then 1 else 0 { CountMore(paths, path, v); }
  }

  /** Where a path can start. */
  ghost predicate Rooted(code: Code, from: nat) {
    from < |code| && (from == 0 || code[from].Consuming()) && Live(code, Entry(from))
  }

  /** Nothing that waits can be reached. */
  ghost predicate Stuck(code: Code, entry: nat) {
    forall v: nat :: Reach(code, entry, v) && v < |code| ==> !Listed(code[v])
  }

  ghost predicate SomeStuck(code: Code) {
    exists from: nat :: Rooted(code, from) && Stuck(code, Entry(from))
  }

  /** The instructions that can hold a thread. */
  ghost function ThreadStates(code: Code, paths: seq<Path>, n: nat): set<nat> {
    set v: nat | v < n && v < |code| && code[v].Consuming() && Count(paths, v) > 0
  }

  /** The instructions that hold a thread on more than one path. */
  ghost function SharedStates(code: Code, paths: seq<Path>, n: nat): set<nat> {
    set v: nat | v < n && v < |code| && code[v].Consuming() && Count(paths, v) > 1
  }

  /** The ids are given in the order of the program, from 0 on. */
  ghost predicate Numbered(code: Code, dup: seq<int>, paths: seq<Path>, n: nat) {
    |dup| == |code| && forall v: nat :: v < n && v < |code| && dup[v] >= 0 ==> dup[v] == |SharedStates(code, paths, v)|
  }

  /** The states below `n` that lie on more than one path have an id of their own
      below `ids`, the others have none. */
  ghost predicate Identified(code: Code, dup: seq<int>, paths: seq<Path>, n: nat, ids: nat) {
    && |dup| == |code|
    && (forall v: nat :: v < n && v < |code| ==>
          -1 <= dup[v] < ids && (dup[v] >= 0 <==> code[v].Consuming() && Count(paths, v) > 1))
    && (forall v: nat, w: nat :: v < w < n && w < |code| && dup[v] >= 0 ==> dup[v] != dup[w])
  }

  /** Every accessed instruction has its one path. */
  ghost predicate Indexed(code: Code, accessed: seq<bool>, paths: seq<Path>) {
    && |accessed| == |code|
    && (forall k :: 0 <= k < |paths| ==> Rooted(code, paths[k].from) && accessed[paths[k].from]
                                         && IsPath(code, paths[k]))
    && (forall j, k :: 0 <= j < k < |paths| ==> paths[j].from != paths[k].from)
    && (forall v: nat :: v < |code| && accessed[v] ==> HasPath(paths, v))
  }

  ghost predicate HasPath(paths: seq<Path>, v: nat) {
    exists k :: 0 <= k < |paths| && paths[k].from == v
  }

  lemma IndexedMore(code: Code, accessed: seq<bool>, paths: seq<Path>, path: Path)
    requires Indexed(code, accessed, paths) && Rooted(code, path.from) && !accessed[path.from] && IsPath(code, path)
    ensures Indexed(code, accessed[path.from := true], paths + [path])
  {
    hide IsPath;
    var more, accessed' := paths + [path], accessed[path.from := true];
    forall v: nat | v < |code| && accessed'[v] ensures HasPath(more, v) {
      if v == path.from {
        assert more[|paths|].from == v;
      } else {
        var k :| 0 <= k < |paths| && paths[k].from == v;
        assert more[k].from == v;
      }
    }
  }

  function Marked(accessed: seq<bool>): set<nat> {
    set v | 0 <= v < |accessed| && accessed[v]
  }

  /** Every thread state of the path is accessed. */
  ghost predicate Followed(code: Code, accessed: seq<bool>, to: seq<nat>) {
    forall i :: 0 <= i < |to| ==> to[i] < |code| && (code[to[i]].Match? || (to[i] < |accessed| && accessed[to[i]]))
  }

  /** What the compiler of the JIT keeps. */
  class Graph {
    const program: Program
    const accessed: array<bool>
    const dup: array<int>
    var tag: nat
    var to: seq<nat>      // the path being built
    var paths: seq<Path>
    var uniqThreads: nat
    var dupThreads: nat

    ghost predicate Shape() {
      && program.Shape() && AssertionFree(program.code) && |program.code| > 0 && program.code[0].Split?
      && accessed.Length == |program.code| && dup.Length == |program.code|
    }

    constructor (program: Program)
      requires program.Shape() && AssertionFree(program.code) && |program.code| > 0 && program.code[0].Split?
      ensures Shape() && this.program == program && fresh(accessed) && fresh(dup) && paths == []
              && uniqThreads == dupThreads == 0
      ensures forall v :: 0 <= v < dup.Length ==> dup[v] == 0 && !accessed[v]
    {
      this.program := program;
      accessed := new bool[|program.code|](_ => false);
      dup := new int[|program.code|](_ => 0);
      tag, to, paths, uniqThreads, dupThreads := 0, [], [], 0, 0;
    }

    method AddState(pc: nat, ghost base: seq<int>)
      requires pc < |program.code| && (program.code[pc].Match? || program.code[pc].Consuming()) && pc !in to
      requires Tallied(program.code, dup[..], base, to)
      modifies this`to, dup
      ensures to == old(to) + [pc] && Tallied(program.code, dup[..], base, to)
    {
      if !program.code[pc].Match? { dup[pc] := dup[pc] + 1; }
      to := to + [pc];
    }

    /** Adds the states behind `pc`: what consumes and is counted as a thread, and
        MATCH. */
    method NextStates(pc: nat, ghost entry: nat, ghost base: seq<int>)
      requires Shape() && Live(program.code, pc) && Reach(program.code, entry, pc)
      requires Lists(program.code, to, Stamped(program.tags[..], tag)) && Tallied(program.code, dup[..], base, to)
      modifies this`to, program.tags, dup
      ensures Lists(program.code, to, Stamped(program.tags[..], tag)) && pc in Stamped(program.tags[..], tag)
      ensures Swept(program.code, entry, old(Stamped(program.tags[..], tag)), Stamped(program.tags[..], tag))
      ensures Tallied(program.code, dup[..], base, to)
      ensures forall k :: 0 <= k < program.tags.Length ==> program.tags[k] == old(program.tags[k])
                                                           || program.tags[k] == tag
      decreases UpTo(|program.code|) - Stamped(program.tags[..], tag)
    {
      hide Reach, Swept, Lists, WellTargeted, Live, Eps, CodeLookAheadFree, Tallied;
      ghost var code, before := program.code, Stamped(program.tags[..], tag);
      Follows(code, entry, pc);
      SweptSame(code, entry, before);
      if program.tags[pc] == tag { return; }
      SweptSame(code, entry, before + {pc});
      program.tags[pc] := tag;
      assert Stamped(program.tags[..], tag) == before + {pc};
      ListsStamp(code, to, before, pc);
      EpsTargets(code, [], 0, pc);
      var inst := program.code[pc];
      if inst.Split? {
        NextStates(inst.x, entry, base);
        ghost var middle := Stamped(program.tags[..], tag);
        NextStates(inst.y, entry, base);
        SweptTwice(code, entry, before + {pc}, middle, Stamped(program.tags[..], tag));
      } else if inst.Jmp? {
        NextStates(inst.x, entry, base);
      } else if inst.Save? {
        if pc + 1 != |program.code| { NextStates(pc + 1, entry, base); }
      } else {
        NewState(code, to, before, pc);
        AddState(pc, base);
      }
      SweptUp(code, entry, before, Stamped(program.tags[..], tag), pc);
    }

    ghost predicate Built()
      reads this, program, program.tags, accessed, dup
    {
      && Shape() && program.TagsUpTo(program.tag)
      && Indexed(program.code, accessed[..], paths) && Counts(program.code, dup[..], paths)
    }

    /** One path; false when nothing waits behind it. */
    method MakePath(pc: nat) returns (ok: bool)
      requires Built() && Rooted(program.code, pc) && !accessed[pc]
      modifies this`to, this`tag, this`paths, program, program.tags, accessed, dup
      ensures ok ==> Built() && |paths| == |old(paths)| + 1 && old(paths) <= paths
      ensures ok ==> paths[|old(paths)|].from == pc && accessed[..] == old(accessed[..])[pc := true]
      ensures ok ==> paths[|old(paths)|].to != []
      ensures !ok ==> Stuck(program.code, Entry(pc))
    {
      hide Swept, Lists, WellTargeted, Live, CodeLookAheadFree, Reach, Indexed, Counts, Tallied, Entry, AssertionFree,
          Stuck;
      ghost var code, base := program.code, dup[..];
      accessed[pc] := true;
      tag := program.tag + 1;
      to := [];
      NoneStamped(program.tags[..], tag);
      NothingListed(code, base);
      var entry := Entry(pc);
      ReachSelf(code, entry);
      NextStates(entry, entry, base);
      program.tag := tag;
      if to == [] {
        NothingWaits(code, entry, Stamped(program.tags[..], tag));
        return false;
      }
      var path := Path(pc, to);
      PathIs(code, path, Stamped(program.tags[..], tag));
      IndexedMore(code, old(accessed[..]), paths, path);
      CountsMore(code, base, dup[..], paths, path);
      paths := paths + [path];
      assert accessed[..] == old(accessed[..])[pc := true];
      return true;
    }

    /** Builds the path of `pc` and then those of its states that have none. */
    method BuildPaths(pc: nat) returns (ok: bool)
      requires Built() && Rooted(program.code, pc) && !accessed[pc]
      modifies this`to, this`tag, this`paths, program, program.tags, accessed, dup
      ensures ok ==> Built() && |paths| > |old(paths)| && old(paths) <= paths && paths[|old(paths)|].from == pc
      ensures ok ==> FollowedFrom(program.code, accessed[..], paths, |old(paths)|) && NoneEmpty(paths, |old(paths)|)
      ensures ok ==> accessed[pc] && StillMarked(old(accessed[..]), accessed[..])
      ensures !ok ==> SomeStuck(program.code)
      decreases UpTo(|program.code|) - Marked(accessed[..])
    {
      hide *;
      ghost var code, base, before := program.code, |paths|, accessed[..];
      ShapeParts();
      RootedIs(code, pc);
      ok := MakePath(pc);
      if !ok {
        StuckSomewhere(code, pc);
        return;
      }
      var path := paths[|paths| - 1];
      ghost var made, marks := paths, accessed[..];
      JustMarked(before, pc, |code|);
      NothingFollowed(code, marks, made);
      OneNotEmpty(made);
      PathOf(base);
      var i := 0;
      while i < |path.to|
        invariant 0 <= i <= |path.to| && Built() && made <= paths && StillMarked(marks, accessed[..])
        invariant Followed(code, accessed[..], path.to[..i]) && FollowedFrom(code, accessed[..], paths, base + 1)
        invariant NoneEmpty(paths, base)
      {
        var v := path.to[i];
        StateIs(code, path, i);
        if !program.code[v].Match? && !accessed[v] {
          ghost var now, paths' := accessed[..], paths;
          StillFewer(before, marks, now, |code|);
          RootedAt(code, v);
          ok := BuildPaths(v);
          if !ok { return; }
          NoneEmptyTwice(paths', paths, base);
          MoreFollowed(code, now, accessed[..], path.to[..i], paths', paths, base + 1);
          MarkedTwice(marks, now, accessed[..]);
        }
        OneFollowed(code, accessed[..], path.to, i);
        i := i + 1;
      }
      AllFollowed(code, accessed[..], path.to, made, paths, base);
      MarkedTwice(before, marks, accessed[..]);
      MarkedStays(marks, accessed[..], pc);
    }

    /** Turns the counts into ids. */
    method AssignIds()
      requires Built() && uniqThreads == dupThreads == 0
      modifies dup, this`uniqThreads, this`dupThreads
      ensures Identified(program.code, dup[..], paths, |program.code|, dupThreads)
      ensures uniqThreads == |ThreadStates(program.code, paths, |program.code|)|
      ensures dupThreads == |SharedStates(program.code, paths, |program.code|)|
      ensures Numbered(program.code, dup[..], paths, |program.code|)
      ensures paths == old(paths)
    {
      hide Indexed, CodeLookAheadFree, WellTargeted, AssertionFree, IsPath, Count, Identified, ThreadStates, Counts,
          SharedStates, Numbered;
      ghost var code, counts := program.code, dup[..];
      var n, i := 0, 0;
      NoneIdentified(code, dup[..], paths);
      while i < |program.code|
        invariant 0 <= i <= |code| && uniqThreads == |ThreadStates(code, paths, i)|
        invariant n == |SharedStates(code, paths, i)| && Numbered(code, dup[..], paths, i)
        invariant Identified(code, dup[..], paths, i, n) && forall v :: i <= v < |code| ==> dup[v] == counts[v]
      {
        ghost var before := dup[..];
        OneState(code, counts, paths, i);
        OneShared(code, counts, paths, i);
        if dup[i] > 0 { uniqThreads := uniqThreads + 1; }
        if dup[i] > 1 {
          dup[i] := n;
          n := n + 1;
        } else {
          dup[i] := -1;
        }
        OneNumbered(code, before, dup[..], paths, i);
        OneIdentified(code, before, dup[..], paths, i, if dup[i] == -1 then n else n - 1, counts);
        i := i + 1;
      }
      dupThreads := n;
    }

    lemma ShapeParts()
      requires Built()
      ensures accessed.Length == dup.Length == |program.code| == program.tags.Length && Shape()
      ensures |program.code| > 0 && program.code[0].Split? && WellTargeted(program.code)
    {
      hide Indexed, Counts;
    }

    lemma PathOf(k: nat)
      requires Built() && k < |paths|
      ensures IsPath(program.code, paths[k]) && WellTargeted(program.code) && Live(program.code, Entry(paths[k].from))
    {
    }
  }

  lemma NoneIdentified(code: Code, dup: seq<int>, paths: seq<Path>)
    requires |dup| == |code|
    ensures Identified(code, dup, paths, 0, 0) && ThreadStates(code, paths, 0) == SharedStates(code, paths, 0) == {}
    ensures Numbered(code, dup, paths, 0)
  {
  }

  lemma OneState(code: Code, counts: seq<int>, paths: seq<Path>, i: nat)
    requires Counts(code, counts, paths) && i < |code|
    ensures ThreadStates(code, paths, i + 1) == ThreadStates(code, paths, i) + if counts[i] > 0 then {i} else {}
    ensures |ThreadStates(code, paths, i + 1)| == |ThreadStates(code, paths, i)| + if counts[i] > 0 then 1 else 0
  {
    hide Count;
    assert i !in ThreadStates(code, paths, i);
    assert ThreadStates(code, paths, i + 1) == ThreadStates(code, paths, i) + if counts[i] > 0 then {i} else {};
  }

  lemma OneShared(code: Code, counts: seq<int>, paths: seq<Path>, i: nat)
    requires Counts(code, counts, paths) && i < |code|
    ensures |SharedStates(code, paths, i + 1)| == |SharedStates(code, paths, i)| + if counts[i] > 1 then 1 else 0
  {
    hide Count;
    assert i !in SharedStates(code, paths, i);
    assert SharedStates(code, paths, i + 1) == SharedStates(code, paths, i) + if counts[i] > 1 then {i} else {};
  }

  lemma OneNumbered(code: Code, before: seq<int>, after: seq<int>, paths: seq<Path>, i: nat)
    requires i < |code| && Numbered(code, before, paths, i) && |after| == |before|
    requires forall v :: 0 <= v < |before| && v != i ==> after[v] == before[v]
    requires after[i] == -1 || after[i] == |SharedStates(code, paths, i)|
    ensures Numbered(code, after, paths, i + 1)
  {
    hide SharedStates;
  }

  lemma OneIdentified(code: Code, before: seq<int>, after: seq<int>, paths: seq<Path>, i: nat, n: nat, counts: seq<int>)
    requires i < |code| && Identified(code, before, paths, i, n) && |after| == |before| && Counts(code, counts, paths)
    requires forall v :: 0 <= v < |before| && v != i ==> after[v] == before[v]
    requires after[i] == if counts[i] > 1 then n else -1
    ensures Identified(code, after, paths, i + 1, if after[i] == -1 then n else n + 1)
  {
    hide Count;
  }

  lemma RootedAt(code: Code, v: nat)
    requires v < |code| && code[v].Consuming() && Live(code, v + 1) && |code| > 0 && code[0].Split?
    ensures Rooted(code, v)
  {
  }

  lemma RootedIs(code: Code, pc: nat)
    requires Rooted(code, pc)
    ensures pc < |code| && Live(code, Entry(pc))
  {
  }

  /** What is marked stays marked. */
  ghost predicate StillMarked(a: seq<bool>, b: seq<bool>) {
    |a| == |b| && forall v :: 0 <= v < |a| && a[v] ==> b[v]
  }

  lemma MarkedTwice(a: seq<bool>, b: seq<bool>, c: seq<bool>)
    requires StillMarked(a, b) && StillMarked(b, c)
    ensures StillMarked(a, c)
  {
  }

  lemma MarkedStays(a: seq<bool>, b: seq<bool>, v: nat)
    requires StillMarked(a, b) && v < |a| && a[v]
    ensures v < |b| && b[v]
  {
  }

  lemma JustMarked(before: seq<bool>, pc: nat, n: nat)
    requires |before| == n && pc < n && !before[pc]
    ensures StillMarked(before, before[pc := true]) && StillMarked(before[pc := true], before[pc := true])
    ensures UpTo(n) - Marked(before[pc := true]) < UpTo(n) - Marked(before)
  {
    assert pc in UpTo(n) - Marked(before) && pc !in UpTo(n) - Marked(before[pc := true]);
  }

  lemma StillFewer(before: seq<bool>, marks: seq<bool>, now: seq<bool>, n: nat)
    requires |before| == n && UpTo(n) - Marked(marks) < UpTo(n) - Marked(before) && StillMarked(marks, now)
    ensures UpTo(n) - Marked(now) < UpTo(n) - Marked(before)
  {
  }

  /** A state is live, and so is what follows it when it consumes. */
  lemma StateIs(code: Code, path: Path, i: nat)
    requires IsPath(code, path) && i < |path.to| && WellTargeted(code) && Live(code, Entry(path.from))
    ensures var v := path.to[i]; v < |code| && (code[v].Match? || code[v].Consuming())
    ensures var v := path.to[i]; code[v].Consuming() ==> Live(code, v + 1)
  {
    hide Reach, WellTargeted, Live;
    var visited: set<nat> :|
      Entry(path.from) in visited && Swept(code, Entry(path.from), {}, visited) && Lists(code, path.to, visited);
    var v := path.to[i];
    assert v in path.to;
    ReachLive(code, Entry(path.from), v);
    if code[v].Consuming() { ConsumedLive(code, v); }
  }

  lemma ConsumedLive(code: Code, v: nat)
    requires WellTargeted(code) && Live(code, v) && code[v].Consuming()
    ensures Live(code, v + 1)
  {
    assert Target(code[v], v, v + 1);
  }

  lemma ReachLive(code: Code, pc: nat, v: nat)
    requires WellTargeted(code) && Live(code, pc) && Reach(code, pc, v)
    ensures Live(code, v)
  {
    var n: nat :| Run(code, [], 0, |code|, Conf(pc, 0, []), Conf(v, 0, []), n);
    RunFromLive(code, [], 0, Conf(pc, 0, []), Conf(v, 0, []), n);
  }

  lemma NothingFollowed(code: Code, accessed: seq<bool>, paths: seq<Path>)
    requires paths != []
    ensures Followed(code, accessed, paths[|paths| - 1].to[..0]) && FollowedFrom(code, accessed, paths, |paths|)
  {
  }

  lemma OneFollowed(code: Code, accessed: seq<bool>, to: seq<nat>, i: nat)
    requires i < |to| && Followed(code, accessed, to[..i])
    requires to[i] < |code| && (code[to[i]].Match? || (to[i] < |accessed| && accessed[to[i]]))
    ensures Followed(code, accessed, to[..i + 1])
  {
    assert forall j :: 0 <= j < i ==> to[..i + 1][j] == to[..i][j];
  }

  lemma MoreFollowed(code: Code, accessed: seq<bool>, accessed': seq<bool>, to: seq<nat>, paths: seq<Path>,
                     paths': seq<Path>, k: nat)
    requires StillMarked(accessed, accessed') && Followed(code, accessed, to) && FollowedFrom(code, accessed, paths, k)
    requires paths <= paths' && FollowedFrom(code, accessed', paths', |paths|)
    ensures Followed(code, accessed', to) && FollowedFrom(code, accessed', paths', k)
  {
    FollowedMore(code, accessed, accessed', to);
    forall i | k <= i < |paths'| ensures Followed(code, accessed', paths'[i].to) {
      if i < |paths| { FollowedMore(code, accessed, accessed', paths[i].to); }
    }
  }

  lemma AllFollowed(code: Code, accessed: seq<bool>, to: seq<nat>, made: seq<Path>, paths: seq<Path>, k: nat)
    requires Followed(code, accessed, to[..|to|]) && |made| == k + 1 && made[k].to == to && made <= paths
    requires FollowedFrom(code, accessed, paths, k + 1)
    ensures FollowedFrom(code, accessed, paths, k)
  {
    assert to[..|to|] == to && paths[k] == made[k];
  }

  lemma FollowedMore(code: Code, accessed: seq<bool>, accessed': seq<bool>, to: seq<nat>)
    requires Followed(code, accessed, to) && |accessed| == |accessed'|
             && forall v :: 0 <= v < |accessed| && accessed[v] ==> accessed'[v]
    ensures Followed(code, accessed', to)
  {
  }

  /** All paths from number `k` on are followed. */
  ghost predicate FollowedFrom(code: Code, accessed: seq<bool>, paths: seq<Path>, k: nat) {
    forall i :: k <= i < |paths| ==> Followed(code, accessed, paths[i].to)
  }

  /** From each path from number `k` on something follows. */
  predicate NoneEmpty(paths: seq<Path>, k: nat) {
    forall i :: k <= i < |paths| ==> paths[i].to != []
  }

  lemma OneNotEmpty(paths: seq<Path>)
    requires paths != [] && paths[|paths| - 1].to != []
    ensures NoneEmpty(paths, |paths| - 1)
  {
  }

  lemma NoneEmptyTwice(paths: seq<Path>, paths': seq<Path>, k: nat)
    requires NoneEmpty(paths, k) && paths <= paths' && NoneEmpty(paths', |paths|)
    ensures NoneEmpty(paths', k)
  {
  }

  lemma NothingListed(code: Code, dup: seq<int>)
    ensures Lists(code, [], {})
    ensures |dup| == |code| ==> Tallied(code, dup, dup, [])
  {
  }

  lemma PathIs(code: Code, path: Path, visited: set<nat>)
    requires Entry(path.from) in visited && Swept(code, Entry(path.from), {}, visited) && Lists(code, path.to, visited)
    ensures IsPath(code, path)
  {
    hide Swept, Lists;
  }

  /** A closed set holds everything that can be reached. */
  lemma {:induction false} SweptAll(code: Code, entry: nat, visited: set<nat>, v: nat, n: nat)
    requires entry in visited && Swept(code, entry, {}, visited)
    requires Run(code, [], 0, |code|, Conf(entry, 0, []), Conf(v, 0, []), n)
    ensures v in visited
    decreases n
  {
    if n > 0 {
      var b := RunLast(code, [], 0, |code|, Conf(entry, 0, []), Conf(v, 0, []), n);
      RunBounds(code, [], 0, |code|, Conf(entry, 0, []), b, n - 1);
      assert b == Conf(b.pc, 0, []);
      SweptAll(code, entry, visited, b.pc, n - 1);
      assert Eps(code, [], 0, b.pc, v);
    }
  }

  lemma NothingWaits(code: Code, entry: nat, visited: set<nat>)
    requires entry in visited && Swept(code, entry, {}, visited) && Lists(code, [], visited)
    ensures Stuck(code, entry)
  {
    hide Swept;
    forall v: nat | Reach(code, entry, v) ensures v < |code| ==> !Listed(code[v]) {
      var n: nat :| Run(code, [], 0, |code|, Conf(entry, 0, []), Conf(v, 0, []), n);
      SweptAll(code, entry, visited, v, n);
    }
  }

  lemma StuckSomewhere(code: Code, from: nat)
    requires Rooted(code, from) && Stuck(code, Entry(from))
    ensures SomeStuck(code)
  {
    hide Rooted, Stuck;
  }

  lemma NewState(code: Code, to: seq<nat>, before: set<nat>, pc: nat)
    requires Lists(code, to, before) && pc !in before
    ensures pc !in to
  {
  }
}
