/** The machine the JIT emits for a path graph, without the emitted bytes: which
    threads it lists, how it keeps them distinct, and what it answers. */
module JitMachine {
  import opened Regexes
  import opened Bytecode
  import opened Programs
  import opened Finite
  import opened Thompson
  import opened JitGraph

  /** A finished graph: its paths from the start on, and the ids of the states that
      need a bit. */
  ghost predicate Compiled(code: Code, paths: seq<Path>, ids: seq<int>, uniq: nat, dups: nat) {
    && paths != [] && paths[0].from == 0
    && (forall k :: 0 <= k < |paths| ==> Rooted(code, paths[k].from) && IsPath(code, paths[k]))
    && (forall j, k :: 0 <= j < k < |paths| ==> paths[j].from != paths[k].from)
    && (forall k :: 0 <= k < |paths| ==> Leads(code, paths, paths[k].to)) && NoneEmpty(paths, 0)
    && Identified(code, ids, paths, |code|, dups) && uniq == |ThreadStates(code, paths, |code|)|
    && dups == |SharedStates(code, paths, |code|)|
  }

  /** Every thread state has its path. */
  ghost predicate Leads(code: Code, paths: seq<Path>, to: seq<nat>) {
    forall i :: 0 <= i < |to| ==> to[i] < |code|
                                  && (code[to[i]].Match? || (code[to[i]].Consuming() && HasPath(paths, to[i])))
  }

  lemma FollowedLeads(code: Code, accessed: seq<bool>, paths: seq<Path>, path: Path)
    requires Indexed(code, accessed, paths) && Followed(code, accessed, path.to) && IsPath(code, path)
    requires WellTargeted(code) && Live(code, Entry(path.from))
    ensures Leads(code, paths, path.to)
  {
    hide IsPath, WellTargeted, Live;
    forall i | 0 <= i < |path.to|
      ensures path.to[i] < |code| && (code[path.to[i]].Match? || code[path.to[i]].Consuming()) {
      StateIs(code, path, i);
    }
  }

  method Compile(program: Program) returns (ok: bool, paths: seq<Path>, ids: array<int>, uniq: nat, dups: nat)
    requires program.Valid() && AssertionFree(program.code) && |program.code| > 0 && program.code[0].Split?
    modifies program, program.tags
    ensures ok ==> Compiled(program.code, paths, ids[..], uniq, dups) && program.Valid()
    ensures !ok ==> SomeStuck(program.code)
    ensures fresh(ids)
  {
    hide *;
    ProgramParts(program);
    var graph := new Graph(program);
    Begins(graph);
    ok := graph.BuildPaths(0);
    paths, ids, uniq, dups := graph.paths, graph.dup, 0, 0;
    if !ok { return; }
    ghost var code, accessed := program.code, graph.accessed[..];
    BuiltParts(graph);
    graph.AssignIds();
    uniq, dups := graph.uniqThreads, graph.dupThreads;
    CompiledNow(code, accessed, paths, graph.dup[..], uniq, dups);
  }

  lemma ProgramParts(program: Program)
    requires program.Valid()
    ensures program.Shape() && program.TagsUpTo(program.tag)
  {
  }

  /** Before anything is built. */
  lemma Begins(graph: Graph)
    requires graph.Shape() && graph.program.TagsUpTo(graph.program.tag) && graph.paths == []
    requires forall v :: 0 <= v < graph.dup.Length ==> graph.dup[v] == 0 && !graph.accessed[v]
    ensures graph.Built() && Rooted(graph.program.code, 0) && !graph.accessed[0]
  {
    var code := graph.program.code;
    assert forall v: nat :: v < |code| ==> !graph.accessed[..][v];
  }

  lemma BuiltParts(graph: Graph)
    requires graph.Built()
    ensures Indexed(graph.program.code, graph.accessed[..], graph.paths) && graph.program.Valid()
    ensures WellTargeted(graph.program.code)
  {
    hide Indexed, Counts, WellTargeted;
  }

  lemma CompiledNow(code: Code, accessed: seq<bool>, paths: seq<Path>, ids: seq<int>, uniq: nat, dups: nat)
    requires Indexed(code, accessed, paths) && FollowedFrom(code, accessed, paths, 0) && paths != []
             && paths[0].from == 0
    requires Identified(code, ids, paths, |code|, dups) && uniq == |ThreadStates(code, paths, |code|)|
    requires dups == |SharedStates(code, paths, |code|)| && NoneEmpty(paths, 0) && WellTargeted(code)
    ensures Compiled(code, paths, ids, uniq, dups)
  {
    hide IsPath, WellTargeted, Identified, ThreadStates, Leads, Followed;
    forall k | 0 <= k < |paths| ensures Leads(code, paths, paths[k].to) {
      assert Followed(code, accessed, paths[k].to);
      RootedIs(code, paths[k].from);
      FollowedLeads(code, accessed, paths, paths[k]);
    }
  }

  /* One step. */

  /** `v` is a thread state of one of the paths that ran. */
  ghost predicate Ran(code: Code, paths: seq<Path>, ran: set<nat>, v: nat) {
    v < |code| && code[v].Consuming() && exists k: nat :: k in ran && k < |paths| && v in paths[k].to
  }

  /** The list holds the thread states of the paths that ran and of the first part
      of another, each once. */
  ghost predicate Holding(code: Code, paths: seq<Path>, l: seq<nat>, ran: set<nat>, part: seq<nat>) {
    && (forall i, j :: 0 <= i < j < |l| ==> l[i] != l[j])
    && forall v: nat :: v in l <==> Ran(code, paths, ran, v) || (v < |code| && code[v].Consuming() && v in part)
  }

  /** The bits say what is listed. */
  ghost predicate Bits(ids: seq<int>, added: seq<bool>, l: seq<nat>) {
    forall v: nat :: v < |ids| && ids[v] >= 0 ==> ids[v] < |added| && (added[ids[v]] <==> v in l)
  }

  lemma {:induction false} CountOne(paths: seq<Path>, k: nat, v: nat)
    requires k < |paths| && v in paths[k].to
    ensures Count(paths, v) > 0
    decreases |paths|
  {
    if k < |paths| - 1 { CountOne(paths[..|paths| - 1], k, v); }
  }

  lemma {:induction false} CountTwo(paths: seq<Path>, j: nat, k: nat, v: nat)
    requires j < k < |paths| && v in paths[j].to && v in paths[k].to
    ensures Count(paths, v) > 1
    decreases |paths|
  {
    var front := paths[..|paths| - 1];
    if k == |paths| - 1 { CountOne(front, j, v); } else { CountTwo(front, j, k, v); }
  }

  /** A state without an id is on the list only if this path put it there. */
  lemma Alone(code: Code, paths: seq<Path>, ids: seq<int>, dups: nat, l: seq<nat>, ran: set<nat>, k: nat, i: nat)
    requires Identified(code, ids, paths, |code|, dups) && k < |paths| && k !in ran && i < |paths[k].to|
    requires Holding(code, paths, l, ran, paths[k].to[..i]) && forall a, b :: 0 <= a < b < |paths[k].to| ==>
             paths[k].to[a] != paths[k].to[b]
    requires var v := paths[k].to[i]; v < |code| && code[v].Consuming() && ids[v] < 0
    ensures paths[k].to[i] !in l
  {
    hide Count;
    var v := paths[k].to[i];
    if v in l {
      if Ran(code, paths, ran, v) {
        var j: nat :| j in ran && j < |paths| && v in paths[j].to;
        if j < k { CountTwo(paths, j, k, v); } else { CountTwo(paths, k, j, v); }
      }
    }
  }

  /** There is room for a thread state that is not listed. */
  lemma RoomLeft(code: Code, paths: seq<Path>, l: seq<nat>, ran: set<nat>, k: nat, i: nat)
    requires k < |paths| && i < |paths[k].to| && Holding(code, paths, l, ran, paths[k].to[..i])
    requires var v := paths[k].to[i]; v < |code| && code[v].Consuming() && v !in l
    ensures |l| < |ThreadStates(code, paths, |code|)|
  {
    hide Count;
    var v, all := paths[k].to[i], ThreadStates(code, paths, |code|);
    forall w | w in l ensures w in all {
      if Ran(code, paths, ran, w) {
        var j: nat :| j in ran && j < |paths| && w in paths[j].to;
        CountOne(paths, j, w);
      } else {
        CountOne(paths, k, w);
      }
    }
    CountOne(paths, k, v);
    Smaller(Elements(l), all - {v});
  }

  /* What a step means. */

  /** Non-consuming runs are the same everywhere in a stream. */
  lemma {:induction false} ReachRun(code: Code, s: seq<Byte>, c: Conf, v: nat, p: nat, n: nat)
    requires AssertionFree(code) && c.pos == 0 && c.vec == [] && Run(code, [], 0, |code|, c, Conf(v, 0, []), n)
    ensures Run(code, s, 0, |code|, Conf(c.pc, p, []), Conf(v, p, []), n)
    decreases n
  {
    if n > 0 {
      var c' :| Moves(code, [], c, c') && Run(code, [], 0, |code|, c', Conf(v, 0, []), n - 1);
      assert c'.pos == 0 && c'.vec == [] && Moves(code, s, Conf(c.pc, p, []), Conf(c'.pc, p, []));
      ReachRun(code, s, c', v, p, n - 1);
    }
  }

  lemma ReachAt(code: Code, s: seq<Byte>, p: nat, pc: nat, v: nat)
    requires AssertionFree(code) && Reach(code, pc, v) && At(code, s, p, pc)
    ensures At(code, s, p, v)
  {
    var n: nat :| Run(code, [], 0, |code|, Conf(pc, 0, []), Conf(v, 0, []), n);
    ReachRun(code, s, Conf(pc, 0, []), v, p, n);
    var m: nat :| Run(code, s, 0, |code|, Conf(0, 0, []), Conf(pc, p, []), m);
    RunAppend(code, s, 0, |code|, Conf(0, 0, []), Conf(pc, p, []), Conf(v, p, []), m, n);
  }

  lemma SameEps(code: Code, s: seq<Byte>, p: nat, v: nat, w: nat)
    requires AssertionFree(code)
    ensures Eps(code, s, p, v, w) == Eps(code, [], 0, v, w)
  {
    if v < |code| {
      EpsTargets(code, s, p, v);
      EpsTargets(code, [], 0, v);
    }
  }

  /** What the paths that ran lead to at position `q`. */
  ghost predicate Swung(code: Code, paths: seq<Path>, s: seq<Byte>, q: nat, ran: set<nat>, visited: set<nat>) {
    && ClosedSince(code, s, q, {}, visited) && AllAt(code, s, q, visited)
    && forall v: nat :: v in visited && v < |code| && Listed(code[v]) <==> Ran(code, paths, ran, v)
  }

  lemma SwungNone(code: Code, paths: seq<Path>, s: seq<Byte>, q: nat)
    ensures Swung(code, paths, s, q, {}, {}) && Holding(code, paths, [], {}, [])
  {
  }

  /** The states of a path that starts where a run is. */
  lemma PathSwung(code: Code, s: seq<Byte>, q: nat, path: Path) returns (visited: set<nat>)
    requires AssertionFree(code) && IsPath(code, path) && At(code, s, q, Entry(path.from))
    ensures Entry(path.from) in visited && ClosedSince(code, s, q, {}, visited) && AllAt(code, s, q, visited)
            && Lists(code, path.to, visited)
  {
    hide Reach, At, Eps;
    visited :| Entry(path.from) in visited && Swept(code, Entry(path.from), {}, visited)
        && Lists(code, path.to, visited);
    forall v | v in visited ensures v < |code| && At(code, s, q, v) { ReachAt(code, s, q, Entry(path.from), v); }
    forall v, w: nat | v in visited && Eps(code, s, q, v, w) ensures w in visited { SameEps(code, s, q, v, w); }
  }

  lemma MatchedAt(code: Code, s: seq<Byte>, q: nat, path: Path, v: nat)
    requires AssertionFree(code) && IsPath(code, path) && At(code, s, q, Entry(path.from))
    requires v in path.to && v < |code| && code[v].Match?
    ensures Accepting(code, s, q)
  {
    var visited := PathSwung(code, s, q, path);
    hide At, Eps, ClosedSince;
    AcceptingIsAt(code, s, q);
  }

  lemma SwungMore(code: Code, paths: seq<Path>, s: seq<Byte>, q: nat, ran: set<nat>, visited: set<nat>, k: nat)
      returns (more: set<nat>)
    requires AssertionFree(code) && k < |paths| && IsPath(code, paths[k]) && At(code, s, q, Entry(paths[k].from))
    requires Swung(code, paths, s, q, ran, visited)
    requires forall v :: v in paths[k].to ==> v < |code| && !code[v].Match?
    ensures Swung(code, paths, s, q, ran + {k}, more) && visited <= more && Entry(paths[k].from) in more
  {
    var new' := PathSwung(code, s, q, paths[k]);
    more := visited + new';
    hide At, Eps, IsPath, AssertionFree;
    forall v: nat ensures v in more && v < |code| && Listed(code[v]) <==> Ran(code, paths, ran + {k}, v) {
      RanMore(code, paths, ran, k, v);
    }
  }

  lemma RanMore(code: Code, paths: seq<Path>, ran: set<nat>, k: nat, v: nat)
    requires k < |paths|
    ensures Ran(code, paths, ran + {k}, v) <==> Ran(code, paths, ran, v)
                                                || (v < |code| && code[v].Consuming() && v in paths[k].to)
  {
    if v < |code| && code[v].Consuming() && v in paths[k].to { assert k in ran + {k}; }
  }

  /** The threads of a list: they consume and have paths. */
  ghost predicate Threads(code: Code, paths: seq<Path>, l: seq<nat>) {
    forall i :: 0 <= i < |l| ==> l[i] < |code| && code[l[i]].Consuming() && HasPath(paths, l[i])
  }

  lemma HeldThreads(code: Code, paths: seq<Path>, l: seq<nat>, ran: set<nat>)
    requires Holding(code, paths, l, ran, []) && forall k :: 0 <= k < |paths| ==> Leads(code, paths, paths[k].to)
    ensures Threads(code, paths, l)
  {
    hide HasPath;
    forall i | 0 <= i < |l| ensures l[i] < |code| && code[l[i]].Consuming() && HasPath(paths, l[i]) {
      var v := l[i];
      assert v in l && Ran(code, paths, ran, v);
      var k: nat :| k in ran && k < |paths| && v in paths[k].to;
      assert Leads(code, paths, paths[k].to);
      var j :| 0 <= j < |paths[k].to| && paths[k].to[j] == v;
    }
  }

  lemma SwungLists(code: Code, paths: seq<Path>, s: seq<Byte>, q: nat, l: seq<nat>, ran: set<nat>, visited: set<nat>)
    requires Holding(code, paths, l, ran, []) && Swung(code, paths, s, q, ran, visited)
    ensures Lists(code, l, visited)
  {
    hide ClosedSince, AllAt, Ran;
  }

  /** The machine: the graph as it is compiled in, two thread lists and the bits. */
  class Machine {
    const code: Code
    const paths: seq<Path>
    const ids: seq<int>
    const uniq: nat
    const dups: nat
    const added: array<bool>
    var current: ThreadList
    var next: ThreadList
    var firstBuf: bool
    ghost var done: seq<Byte>   // the stream of the earlier calls

    constructor (code: Code, paths: seq<Path>, ids: seq<int>, uniq: nat, dups: nat)
      requires Compiled(code, paths, ids, uniq, dups) && WellTargeted(code) && AssertionFree(code) && |code| > 0
               && code[0].Split?
      ensures Shape() && firstBuf && done == [] && fresh(added) && fresh(current) && fresh(next)
              && fresh(current.threads) && fresh(next.threads)
      ensures this.code == code && current != next && current.threads != next.threads && current.Valid()
              && next.Valid() && current.Contents() == [] == next.Contents()
      ensures current.threads.Length == uniq == next.threads.Length && this.uniq == uniq
    {
      this.code, this.paths, this.ids, this.uniq, this.dups := code, paths, ids, uniq, dups;
      added := new bool[dups](_ => false);
      current := new ThreadList(uniq);
      next := new ThreadList(uniq);
      firstBuf, done := true, [];
    }

    lemma FreshValid()
      requires Shape() && firstBuf && done == [] && current != next && current.threads != next.threads
      requires current.Valid() && next.Valid() && current.Contents() == [] == next.Contents()
      requires current.threads.Length == uniq == next.threads.Length
      ensures Valid()
    {
    }

    ghost predicate Shape() {
      && Compiled(code, paths, ids, uniq, dups) && added.Length == dups
      && WellTargeted(code) && AssertionFree(code) && |code| > 0 && code[0].Split?
    }

    /** Runs one path: a MATCH ends the step, a state with an id is added unless its
        bit is set, the others always. */
    method RunPath(k: nat, l: ThreadList, ghost ran: set<nat>) returns (matched: bool)
      requires Shape() && k < |paths| && k !in ran && l.Valid() && l.threads.Length == uniq
      requires Holding(code, paths, l.Contents(), ran, []) && (k != 0 ==> Bits(ids, added[..], l.Contents()))
               && (k == 0 ==> ran == {})
      modifies l, l.threads, added
      ensures l.Valid() && (matched ==> exists v :: v in paths[k].to && v < |code| && code[v].Match?)
      ensures !matched ==> Holding(code, paths, l.Contents(), ran + {k}, [])
                           && (k != 0 ==> Bits(ids, added[..], l.Contents()))
      ensures !matched ==> forall v :: v in paths[k].to ==> v < |code| && !code[v].Match?
    {
      hide Identified, ThreadStates, WellTargeted, AssertionFree, IsPath, Holding, Bits, Leads, Rooted;
      var to := paths[k].to;
      PathParts(k);
      assert to[..0] == [];
      var i := 0;
      while i < |to|
        invariant 0 <= i <= |to| && l.Valid()
        invariant Holding(code, paths, l.Contents(), ran, to[..i]) && (k != 0 ==> Bits(ids, added[..], l.Contents()))
        invariant forall j :: 0 <= j < i ==> to[j] < |code| && !code[to[j]].Match?
      {
        var v := to[i];
        if code[v].Match? { return true; }
        AddState(k, i, l, ran);
        i := i + 1;
      }
      assert to[..i] == to;
      RanNow(code, paths, l.Contents(), ran, k);
      return false;
    }

    /** Adds one state to the list. */
    method AddState(k: nat, i: nat, l: ThreadList, ghost ran: set<nat>)
      requires Shape() && k < |paths| && k !in ran && l.Valid() && l.threads.Length == uniq && i < |paths[k].to|
      requires var v := paths[k].to[i]; v < |code| && code[v].Consuming()
      requires Holding(code, paths, l.Contents(), ran, paths[k].to[..i])
               && (k != 0 ==> Bits(ids, added[..], l.Contents())) && (k == 0 ==> ran == {})
      modifies l, l.threads, added
      ensures l.Valid() && Holding(code, paths, l.Contents(), ran, paths[k].to[..i + 1])
              && (k != 0 ==> Bits(ids, added[..], l.Contents()))
    {
      hide *;
      var v := paths[k].to[i];
      CompiledParts(k);
      var tid := ids[v];
      ghost var seen := l.Contents();
      PartMore(paths[k].to, i);
      if k == 0 {
        NotYet(code, paths, seen, k, i);
      } else {
        Unlisted(code, paths, ids, dups, added[..], seen, ran, k, i);
        if tid >= 0 {
          if added[tid] {
            HoldingSkip(code, paths, seen, ran, paths[k].to[..i], v);
            return;
          }
          BitSet(code, paths, ids, dups, added[..], seen, v);
          added[tid] := true;
        } else {
          BitNone(ids, added[..], seen, v);
        }
      }
      RoomLeft(code, paths, seen, ran, k, i);
      HoldingMore(code, paths, seen, ran, paths[k].to[..i], v);
      ListBounds(l, seen);
      l.Append(v);
    }

    lemma CompiledParts(k: nat)
      requires Shape() && k < |paths|
      ensures Identified(code, ids, paths, |code|, dups) && uniq == |ThreadStates(code, paths, |code|)|
              && |ids| == |code|
      ensures added.Length == dups && forall v: nat :: v < |code| ==> ids[v] < dups
      ensures forall a, b :: 0 <= a < b < |paths[k].to| ==> paths[k].to[a] != paths[k].to[b]
    {
      PathParts(k);
      hide ThreadStates, IsPath, Leads, Rooted, Count, WellTargeted, AssertionFree;
    }

    /** The entry point of a thread's instruction in the emitted code. */
    method FindPath(v: nat) returns (k: nat)
      requires HasPath(paths, v)
      ensures k < |paths| && paths[k].from == v
    {
      k := 0;
      while paths[k].from != v
        invariant k < |paths| && exists j :: k <= j < |paths| && paths[j].from == v
        decreases |paths| - k
      {
        k := k + 1;
      }
    }

    method ClearBits(ghost l: seq<nat>)
      requires Shape() && l == []
      modifies added
      ensures Bits(ids, added[..], l)
    {
      hide *;
      var i := 0;
      while i < added.Length
        invariant 0 <= i <= added.Length && forall j :: 0 <= j < i ==> !added[j]
      {
        added[i] := false;
        i := i + 1;
      }
      NoBits(added[..]);
    }

    lemma NoBits(bits: seq<bool>)
      requires Shape() && |bits| == added.Length && forall j :: 0 <= j < |bits| ==> !bits[j]
      ensures Bits(ids, bits, [])
    {
      CompiledParts(0) by { assert paths != []; }
      hide Shape, Count;
    }

    /** What has been done of a step after `i` threads. */
    ghost predicate Halfway(s: seq<Byte>, p: nat, front: seq<nat>, i: nat, ran: set<nat>, visited: set<nat>) {
      && Swung(code, paths, s, p + 1, ran, visited) && i <= |front|
      && (forall k :: k in ran ==> k < |paths| && paths[k].from in front[..i])
      && (forall j :: 0 <= j < i ==> front[j] < |code| && p < |s|
                                     && (code[front[j]].Accepts(s[p]) ==> front[j] + 1 in visited))
    }

    /** One thread on a byte. */
    method RunThread(t: nat, nlist: ThreadList, c: Byte, ghost s: seq<Byte>, ghost p: nat, ghost front: seq<nat>,
                     ghost i: nat,
                     ghost ran: set<nat>, ghost visited: set<nat>)
      returns (matched: bool, ghost ran': set<nat>, ghost visited': set<nat>)
      requires Shape() && nlist.Valid() && nlist.threads.Length == uniq && p < |s| && s[p] == c
      requires Front(code, s, p, front) && Threads(code, paths, front) && i < |front| && front[i] == t
      requires Holding(code, paths, nlist.Contents(), ran, []) && Bits(ids, added[..], nlist.Contents())
               && Halfway(s, p, front, i, ran, visited)
      modifies nlist, nlist.threads, added
      ensures nlist.Valid() && (matched ==> Accepting(code, s, p + 1))
      ensures !matched ==> Holding(code, paths, nlist.Contents(), ran', []) && Bits(ids, added[..], nlist.Contents())
                           && Halfway(s, p, front, i + 1, ran', visited')
    {
      hide *;
      matched, ran', visited' := false, ran, visited;
      ThreadParts(front, i);
      OneByte(c);
      var takes := Consumes(code[t], [c], 0);
      if !takes {
        HalfwaySkip(s, p, front, i, ran, visited);
        return;
      }
      var k := FindPath(t);
      NewPath(s, p, front, i, ran, visited, k);
      matched := RunPath(k, nlist, ran);
      if matched {
        MatchHere(s, p, k);
      } else {
        visited' := SwungMore(code, paths, s, p + 1, ran, visited, k);
        ran' := ran + {k};
        HalfwayMore(s, p, front, i, ran, visited, k, visited');
      }
    }

    lemma OneByte(c: Byte)
      ensures |[c]| == 1 && [c][0] == c
    {
    }

    lemma HalfwaySkip(s: seq<Byte>, p: nat, front: seq<nat>, i: nat, ran: set<nat>, visited: set<nat>)
      requires Halfway(s, p, front, i, ran, visited) && i < |front| && front[i] < |code| && p < |s|
               && !code[front[i]].Accepts(s[p])
      ensures Halfway(s, p, front, i + 1, ran, visited)
    {
      hide Swung;
      assert forall x :: x in front[..i] ==> x in front[..i + 1];
    }

    /** The path of a thread has not run in this step, and a run is where it starts. */
    lemma NewPath(s: seq<Byte>, p: nat, front: seq<nat>, i: nat, ran: set<nat>, visited: set<nat>, k: nat)
      requires Shape() && Front(code, s, p, front) && i < |front| && p < |s| && k < |paths| && paths[k].from == front[i]
      requires front[i] < |code| && code[front[i]].Consuming() && code[front[i]].Accepts(s[p])
               && Halfway(s, p, front, i, ran, visited)
      ensures k !in ran && k != 0 && Entry(paths[k].from) == front[i] + 1 && IsPath(code, paths[k])
      ensures At(code, s, p + 1, Entry(paths[k].from)) && AssertionFree(code)
      ensures Swung(code, paths, s, p + 1, ran, visited)
    {
      hide Identified, ThreadStates, Leads, IsPath, Rooted, At, Swung;
      var t := front[i];
      assert t in front;
      Consumed(code, s, p, t);
      assert t !in front[..i];
    }

    lemma MatchHere(s: seq<Byte>, p: nat, k: nat)
      requires k < |paths| && AssertionFree(code) && IsPath(code, paths[k]) && At(code, s, p + 1, Entry(paths[k].from))
      requires exists v :: v in paths[k].to && v < |code| && code[v].Match?
      ensures Accepting(code, s, p + 1)
    {
      hide IsPath, AssertionFree, At, Accepting;
      var v :| v in paths[k].to && v < |code| && code[v].Match?;
      MatchedAt(code, s, p + 1, paths[k], v);
    }

    lemma HalfwayMore(s: seq<Byte>, p: nat, front: seq<nat>, i: nat, ran: set<nat>, visited: set<nat>, k: nat,
                      more: set<nat>)
      requires Halfway(s, p, front, i, ran, visited) && i < |front| && front[i] < |code| && p < |s|
      requires k < |paths| && paths[k].from == front[i] && Entry(paths[k].from) == front[i] + 1
      requires Swung(code, paths, s, p + 1, ran + {k}, more) && visited <= more && Entry(paths[k].from) in more
      ensures Halfway(s, p, front, i + 1, ran + {k}, more)
    {
      hide Swung;
      assert forall x :: x in front[..i] ==> x in front[..i + 1];
      assert front[..i + 1][i] == front[i];
    }

    /** One position: every thread runs on the byte. */
    method Step(clist: ThreadList, nlist: ThreadList, c: Byte, ghost s: seq<Byte>, ghost p: nat) returns (matched: bool)
      requires Shape() && clist != nlist && clist.threads != nlist.threads && clist.Valid() && nlist.Valid()
      requires nlist.Contents() == [] && nlist.threads.Length == uniq && p < |s| && s[p] == c
      requires Front(code, s, p, clist.Contents()) && Threads(code, paths, clist.Contents())
      modifies nlist, nlist.threads, added
      ensures nlist.Valid()
      ensures matched ==> Accepting(code, s, p + 1)
      ensures !matched ==> Front(code, s, p + 1, nlist.Contents()) && Threads(code, paths, nlist.Contents())
    {
      hide *;
      ghost var front := clist.Contents();
      ClearBits(nlist.Contents());
      Starts(s, p, front);
      ghost var ran: set<nat>, visited: set<nat> := {}, {};
      var i := 0;
      ListBounds(clist, front);
      while i < clist.count
        invariant 0 <= i <= clist.count && clist.Contents() == front && nlist.Valid() && clist.count == |front|
                  && clist.Valid()
        invariant Holding(code, paths, nlist.Contents(), ran, []) && Bits(ids, added[..], nlist.Contents())
                  && Halfway(s, p, front, i, ran, visited)
      {
        ListAt(clist, front, i);
        matched, ran, visited := RunThread(clist.threads[i], nlist, c, s, p, front, i, ran, visited);
        if matched { return; }
        i := i + 1;
      }
      Ends(s, p, front, ran, visited, nlist.Contents());
      return false;
    }

    lemma Starts(s: seq<Byte>, p: nat, front: seq<nat>)
      ensures Halfway(s, p, front, 0, {}, {}) && Holding(code, paths, [], {}, [])
    {
      SwungNone(code, paths, s, p + 1);
      hide Swung;
    }

    lemma Ends(s: seq<Byte>, p: nat, front: seq<nat>, ran: set<nat>, visited: set<nat>, l: seq<nat>)
      requires Shape() && Halfway(s, p, front, |front|, ran, visited) && Holding(code, paths, l, ran, [])
               && Front(code, s, p, front) && p < |s|
      ensures Front(code, s, p + 1, l) && Threads(code, paths, l)
    {
      hide Identified, ThreadStates, IsPath, Rooted, At, Holding, Leads, Lists, ClosedSince, AllAt, Ran;
      SwungLists(code, paths, s, p + 1, l, ran, visited);
      HeldThreads(code, paths, l, ran);
      forall u | u in front && code[u].Consuming() && code[u].Accepts(s[p]) ensures u + 1 in visited {
        var j :| 0 <= j < |front| && front[j] == u;
      }
      FrontNext(code, s, p, front, visited, l);
    }

    lemma ThreadParts(front: seq<nat>, i: nat)
      requires Threads(code, paths, front) && i < |front|
      ensures front[i] < |code| && code[front[i]].Consuming() && HasPath(paths, front[i])
    {
    }

    /** What holds between two calls: no match has ended in what was read, and the
        list holds the threads there. */
    ghost predicate Valid()
      reads this, current, current.threads, next, next.threads
    {
      && Shape() && current != next && current.threads != next.threads && current.Valid() && next.Valid()
      && next.Contents() == []
      && current.threads.Length == uniq == next.threads.Length
      && if firstBuf then done == [] && current.Contents() == []
         else Front(code, done, |done|, current.Contents()) && Threads(code, paths, current.Contents())
              && !AcceptsBefore(code, done, |done| + 1)
    }

    /** The path of the start fills the first list. */
    method Start() returns (matched: bool)
      requires Valid() && firstBuf
      modifies this`firstBuf, current, current.threads, added
      ensures !firstBuf && current.Valid() && (matched ==> Accepting(code, [], 0))
      ensures !matched ==> Front(code, [], 0, current.Contents()) && Threads(code, paths, current.Contents())
                           && !Accepting(code, [], 0)
    {
      hide *;
      ValidParts();
      firstBuf := false;
      StartParts(current);
      matched := RunPath(0, current, {});
      if matched {
        StartMatch();
      } else {
        ghost var visited := SwungMore(code, paths, [], 0, {}, {}, 0);
        StartFront(current.Contents(), visited);
      }
    }

    lemma StartParts(l: ThreadList)
      requires Shape() && l.Valid() && l.Contents() == []
      ensures paths != [] && Entry(paths[0].from) == 0 && IsPath(code, paths[0]) && AssertionFree(code)
      ensures At(code, [], 0, 0) && Holding(code, paths, l.Contents(), {}, []) && Swung(code, paths, [], 0, {}, {})
    {
      StartHere(code, []);
      SwungNone(code, paths, [], 0);
      hide Identified, ThreadStates, Leads, IsPath, Rooted, At, Swung, Holding;
    }

    lemma StartMatch()
      requires paths != [] && AssertionFree(code) && IsPath(code, paths[0]) && At(code, [], 0, Entry(paths[0].from))
      requires exists v :: v in paths[0].to && v < |code| && code[v].Match?
      ensures Accepting(code, [], 0)
    {
      hide IsPath, AssertionFree, At, Accepting;
      var v :| v in paths[0].to && v < |code| && code[v].Match?;
      MatchedAt(code, [], 0, paths[0], v);
    }

    lemma StartFront(l: seq<nat>, visited: set<nat>)
      requires Shape() && Holding(code, paths, l, {} + {0}, []) && Swung(code, paths, [], 0, {} + {0}, visited)
      requires 0 in visited
      ensures Front(code, [], 0, l) && Threads(code, paths, l) && !Accepting(code, [], 0)
    {
      hide Identified, ThreadStates, IsPath, Rooted, At, Holding, Leads, Lists, ClosedSince, AllAt, Ran;
      SwungLists(code, paths, [], 0, l, {} + {0}, visited);
      HeldThreads(code, paths, l, {} + {0});
      FrontFirst(code, [], visited, l);
      NoneMatched([], 0, l);
    }

    /** Where only threads wait no match ends. */
    lemma NoneMatched(s: seq<Byte>, p: nat, l: seq<nat>)
      requires Front(code, s, p, l) && Threads(code, paths, l)
      ensures !Accepting(code, s, p)
    {
      hide Accepting, At;
      FrontAccepts(code, s, p, l);
    }

    /** The loop over a chunk. */
    method Feed(a: ThreadList, b: ThreadList, input: seq<Byte>, eof: bool, ghost done: seq<Byte>)
      returns (r: Status, clist: ThreadList, nlist: ThreadList)
      requires Shape() && a != b && a.threads != b.threads && a.Valid() && b.Valid() && b.Contents() == []
      requires a.threads.Length == uniq == b.threads.Length
      requires Front(code, done + input, |done|, a.Contents()) && Threads(code, paths, a.Contents())
      requires !AcceptsBefore(code, done + input, |done| + 1)
      modifies a, a.threads, b, b.threads, added
      ensures (clist == a && nlist == b) || (clist == b && nlist == a)
      ensures a.Valid() && b.Valid()
      ensures var s := done + input;
              && (r == OK <==> AcceptsBefore(code, s, |s| + 1))
              && (r == DECLINED ==> eof)
              && (r == AGAIN ==> !eof && Front(code, s, |s|, clist.Contents())
                                 && Threads(code, paths, clist.Contents()) && nlist.Contents() == [])
    {
      hide *;
      ghost var s, base := done + input, |done|;
      r := if eof then DECLINED else AGAIN;
      clist, nlist := a, b;
      var sp := 0;
      while sp < |input|
        invariant 0 <= sp <= |input| && ((clist == a && nlist == b) || (clist == b && nlist == a))
        invariant a.Valid() && b.Valid() && nlist.Contents() == []
        invariant Front(code, s, base + sp, clist.Contents()) && Threads(code, paths, clist.Contents())
                  && !AcceptsBefore(code, s, base + sp + 1)
        decreases |input| - sp
      {
        ListBounds(clist, clist.Contents());
        if clist.count == 0 {
          Nothing(s, base + sp, clist.Contents());
          return;
        }
        assert s[base + sp] == input[sp];
        var matched := Step(clist, nlist, input[sp], s, base + sp);
        if matched {
          MatchedBefore(s, base + sp + 1);
          r := OK;
          return;
        }
        NoneMatched(s, base + sp + 1, nlist.Contents());
        OneMore(code, s, base + sp + 1);
        clist, nlist := nlist, clist;
        Empty(nlist);
        sp := sp + 1;
      }
    }

    method Empty(l: ThreadList)
      requires l.Valid()
      modifies l`count
      ensures l.Valid() && l.Contents() == []
    {
      l.count := 0;
    }

    lemma MatchedBefore(s: seq<Byte>, p: nat)
      requires Accepting(code, s, p) && p <= |s|
      ensures AcceptsBefore(code, s, |s| + 1)
    {
      hide Accepting;
    }

    lemma Nothing(s: seq<Byte>, p: nat, l: seq<nat>)
      requires Front(code, s, p, l) && l == [] && !AcceptsBefore(code, s, p + 1) && p <= |s|
      ensures !AcceptsBefore(code, s, |s| + 1) && Front(code, s, |s|, l) && Threads(code, paths, l)
    {
      hide Accepting, At;
      OneMore(code, s, p);
      Exhausted(code, s, p, |s| + 1);
    }

    /** One call.  Unlike the interpreter the machine answers OK as soon as a match
        ends in what it has read; at the end of the stream the two agree. */
    method Exec(input: seq<Byte>, eof: bool) returns (r: Status)
      requires Valid()
      modifies this`current, this`next, this`firstBuf, this`done, current, current.threads, next, next.threads, added
      ensures done == old(done) + input
      ensures (current == old(current) && next == old(next)) || (current == old(next) && next == old(current))
      ensures r == OK <==> AcceptsBefore(code, done, |done| + 1)
      ensures r == DECLINED ==> eof
      ensures r == AGAIN ==> !eof && Valid() && !firstBuf
    {
      hide *;
      ghost var s := done + input;
      ValidParts();
      r := AGAIN;
      if firstBuf {
        var matched := Start();
        if matched {
          done := s;
          StartedMatched(input);
          return OK;
        }
        StartedFront(input, current.Contents());
        assert done + input == input;
      } else {
        LaterFront(input);
      }
      var clist, nlist;
      r, clist, nlist := Feed(current, next, input, eof, done);
      current, next, done := clist, nlist, s;
      if r == AGAIN { NowValid(); }
    }

    lemma StartedMatched(input: seq<Byte>)
      requires Shape() && Accepting(code, [], 0)
      ensures AcceptsBefore(code, [] + input, |[] + input| + 1)
    {
      hide Accepting, Compiled, WellTargeted;
      assert AcceptsBefore(code, [], 1);
      AcceptsPrefix(code, [], input, 1);
      More(code, [] + input, 1, |[] + input| + 1);
    }

    lemma StartedFront(input: seq<Byte>, l: seq<nat>)
      requires Shape() && Front(code, [], 0, l) && !Accepting(code, [], 0)
      ensures Front(code, [] + input, 0, l) && !AcceptsBefore(code, [] + input, 0 + 1)
    {
      hide Accepting, Compiled, WellTargeted, Front;
      FrontPrefix(code, [], input, 0, l);
      AcceptsPrefix(code, [], input, 1);
    }

    lemma LaterFront(input: seq<Byte>)
      requires Valid() && !firstBuf
      ensures Front(code, done + input, |done|, current.Contents()) && Threads(code, paths, current.Contents())
      ensures !AcceptsBefore(code, done + input, |done| + 1)
    {
      hide Accepting, Compiled, WellTargeted, Front, Threads;
      FrontPrefix(code, done, input, |done|, current.Contents());
      AcceptsPrefix(code, done, input, |done| + 1);
    }

    lemma NowValid()
      requires Shape() && current != next && current.threads != next.threads && current.Valid() && next.Valid()
               && next.Contents() == []
      requires current.threads.Length == uniq == next.threads.Length && !firstBuf
      requires Front(code, done, |done|, current.Contents()) && Threads(code, paths, current.Contents())
               && !AcceptsBefore(code, done, |done| + 1)
      ensures Valid()
    {
    }

    lemma ValidParts()
      requires Valid()
      ensures Shape() && current != next && current.threads != next.threads && current.Valid() && next.Valid()
              && next.Contents() == []
      ensures current.threads.Length == uniq == next.threads.Length
              && (firstBuf ==> done == [] && current.Contents() == [])
    {
    }

    lemma PathParts(k: nat)
      requires Shape() && k < |paths|
      ensures forall i :: 0 <= i < |paths[k].to| ==>
                paths[k].to[i] < |code|
                    && (code[paths[k].to[i]].Match?
                        || (code[paths[k].to[i]].Consuming() && HasPath(paths, paths[k].to[i])))
      ensures forall a, b :: 0 <= a < b < |paths[k].to| ==> paths[k].to[a] != paths[k].to[b]
    {
      hide Identified, ThreadStates, WellTargeted, AssertionFree, Rooted, Swept;
      assert IsPath(code, paths[k]) && Leads(code, paths, paths[k].to);
    }
  }

  lemma PartMore(to: seq<nat>, i: nat)
    requires i < |to|
    ensures to[..i + 1] == to[..i] + [to[i]]
  {
  }

  lemma ListBounds(l: ThreadList, seen: seq<nat>)
    requires l.Valid() && seen == l.Contents()
    ensures l.count == |seen|
  {
  }

  lemma ListAt(l: ThreadList, seen: seq<nat>, i: nat)
    requires l.Valid() && seen == l.Contents() && i < |seen|
    ensures i < l.threads.Length && l.threads[i] == seen[i]
  {
  }

  /** The first path puts each of its states on an empty list once. */
  lemma NotYet(code: Code, paths: seq<Path>, l: seq<nat>, k: nat, i: nat)
    requires k < |paths| && i < |paths[k].to| && Holding(code, paths, l, {}, paths[k].to[..i])
    requires forall a, b :: 0 <= a < b < |paths[k].to| ==> paths[k].to[a] != paths[k].to[b]
    ensures paths[k].to[i] !in l
  {
  }

  lemma Unlisted(code: Code, paths: seq<Path>, ids: seq<int>, dups: nat, added: seq<bool>, l: seq<nat>, ran: set<nat>,
                 k: nat, i: nat)
    requires Identified(code, ids, paths, |code|, dups) && Bits(ids, added, l) && k < |paths| && k !in ran
             && i < |paths[k].to| && |added| == dups
    requires Holding(code, paths, l, ran, paths[k].to[..i]) && forall a, b :: 0 <= a < b < |paths[k].to| ==>
             paths[k].to[a] != paths[k].to[b]
    requires var v := paths[k].to[i]; v < |code| && code[v].Consuming()
    ensures var v := paths[k].to[i]; |ids| == |code| && (v in l <==> ids[v] >= 0 && added[ids[v]])
  {
    hide Count;
    if ids[paths[k].to[i]] < 0 { Alone(code, paths, ids, dups, l, ran, k, i); }
  }

  lemma HoldingSkip(code: Code, paths: seq<Path>, l: seq<nat>, ran: set<nat>, part: seq<nat>, v: nat)
    requires Holding(code, paths, l, ran, part) && v in l
    ensures Holding(code, paths, l, ran, part + [v])
  {
    hide Ran;
    assert forall w: nat :: w in part + [v] <==> w in part || w == v;
  }

  lemma HoldingMore(code: Code, paths: seq<Path>, l: seq<nat>, ran: set<nat>, part: seq<nat>, v: nat)
    requires Holding(code, paths, l, ran, part) && v !in l && v < |code| && code[v].Consuming()
    ensures Holding(code, paths, l + [v], ran, part + [v])
  {
    hide Ran;
    assert forall w: nat :: w in part + [v] <==> w in part || w == v;
    assert forall w: nat :: w in l + [v] <==> w in l || w == v;
  }

  lemma BitSet(code: Code, paths: seq<Path>, ids: seq<int>, dups: nat, added: seq<bool>, l: seq<nat>, v: nat)
    requires Identified(code, ids, paths, |code|, dups) && |added| == dups && v < |code| && ids[v] >= 0
             && Bits(ids, added, l)
    ensures ids[v] < |added| && Bits(ids, added[ids[v] := true], l + [v])
  {
    hide Count;
    var added' := added[ids[v] := true];
    forall w: nat | w < |ids| && ids[w] >= 0 ensures ids[w] < |added'| && (added'[ids[w]] <==> w in l + [v]) {
      if w < v { assert ids[w] != ids[v]; }
      if v < w { assert ids[v] != ids[w]; }
    }
  }

  lemma BitNone(ids: seq<int>, added: seq<bool>, l: seq<nat>, v: nat)
    requires v < |ids| && ids[v] < 0 && Bits(ids, added, l)
    ensures Bits(ids, added, l + [v])
  {
    assert forall w: nat :: w in l + [v] <==> w in l || w == v;
  }

  lemma RanNow(code: Code, paths: seq<Path>, l: seq<nat>, ran: set<nat>, k: nat)
    requires k < |paths| && Holding(code, paths, l, ran, paths[k].to)
    ensures Holding(code, paths, l, ran + {k}, [])
  {
    forall v: nat
      ensures Ran(code, paths, ran + {k}, v) <==> Ran(code, paths, ran, v)
                                                  || (v < |code| && code[v].Consuming() && v in paths[k].to) {
      if v < |code| && code[v].Consuming() && v in paths[k].to { assert k in ran + {k}; }
    }
  }

  /** The JIT machine and the interpreter on a whole stream.  There is no JIT code only
      if nothing can follow some instruction. */
  method BothAnswer(program: Program, s: seq<Byte>) returns (ok: bool, jit: Status, interpreted: Status)
    requires program.Valid() && AssertionFree(program.code) && |program.code| > 0 && program.code[0].Split?
    modifies program, program.tags
    ensures if ok then jit == interpreted else SomeStuck(program.code)
    ensures ok ==> jit == if AcceptsBefore(program.code, s, |s| + 1) then OK else DECLINED
  {
    hide *;
    ProgramParts(program);
    var paths, ids, uniq, dups;
    ok, paths, ids, uniq, dups := Compile(program);
    jit, interpreted := AGAIN, AGAIN;
    if !ok { return; }
    ShapeGives(program);
    NoAssertions(program.code);
    var machine := new Machine(program.code, paths, ids[..], uniq, dups);
    machine.FreshValid();
    assert [] + s == s;
    jit := machine.Exec(s, true);
    var ctx := new Context(program);
    interpreted := ctx.Exec(s, true);
  }

  lemma NoAssertions(code: Code)
    requires AssertionFree(code)
    ensures CodeLookAheadFree(code)
  {
  }

  lemma ShapeGives(program: Program)
    requires program.Valid()
    ensures WellTargeted(program.code)
  {
  }
}
