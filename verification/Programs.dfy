/** Whole programs: the tree `.*?(re0)|(re1)|...` that the parser assembles
    (src/sregex/sre_yyparser.c:3402-3558) and what reaching a MATCH in its code means. */
module Programs {
  import opened Regexes
  import opened Bytecode
  import opened Compiler
  import opened Fragments

  /** One regex of the set: its $0 group, the number of groups numbered after
      it, and its tree. */
  datatype Branch = Branch(group: nat, ncaps: nat, tree: Regex) {
    predicate WellFormed() {
      Plain(tree) && GroupsWithin(tree, group + 1, group + 1 + ncaps)
    }
  }

  function Leaf(br: Branch, id: nat): Regex {
    Toplevel(Paren(br.group, br.tree), id)
  }

  /** re0|re1|re2|..., grouped to the left, the ids counting from 0. */
  function Chain(bs: seq<Branch>): Regex
    requires |bs| > 0
  {
    var n := |bs| - 1;
    if n == 0 then Leaf(bs[0], 0) else Alt(Chain(bs[..n]), Leaf(bs[n], n))
  }

  function Wrap(bs: seq<Branch>): Regex
    requires |bs| > 0
  {
    Cat(Star(Dot, false), Chain(bs))
  }

  ghost predicate AllWellFormed(bs: seq<Branch>) {
    forall k :: 0 <= k < |bs| ==> bs[k].WellFormed()
  }

  /** `code` is the program of a set of regexes. */
  ghost predicate ProgramOf(code: Code, bs: seq<Branch>) {
    && |bs| > 0 && AllWellFormed(bs)
    && |code| == ProgramLen(Wrap(bs)) && Layout(code, 0, Wrap(bs))
  }

  /** The `.*?` loop every program starts with; the code behind it never
      comes back. */
  predicate Searching(code: Code) {
    && |code| > 3
    && code[0] == Split(3, 1) && code[1] == Any && code[2] == Jmp(0)
    && forall pc :: 3 <= pc < |code| ==> StaysIn(code[pc], pc, 3, |code|)
  }

  lemma {:induction false} ProgramSearches(code: Code, bs: seq<Branch>)
    requires ProgramOf(code, bs)
    ensures Searching(code) && Layout(code, 3, Chain(bs)) && |code| == 3 + ProgramLen(Chain(bs))
  {
    var dots := Star(Dot, false);
    assert ProgramLen(dots) == 3;
    UnfoldCat(code, 0, dots, Chain(bs));
    UnfoldStar(code, 0, Dot, false);
    assert code[1] == Any;
    LayoutWithin(code, 3, Chain(bs), 3, |code|);
    if |bs| == 1 {
      UnfoldToplevel(code, 3, Paren(bs[0].group, bs[0].tree), 0);
    } else {
      UnfoldAlt(code, 3, Chain(bs[..|bs| - 1]), Leaf(bs[|bs| - 1], |bs| - 1));
    }
  }

  predicate AtMatch(code: Code, c: Conf) {
    c.pc < |code| && code[c.pc].Match?
  }

  /** Neither JMP, SPLIT nor SAVE: where a run can be seen to stand. */
  predicate Rests(code: Code, c: Conf) {
    c.pc < |code| && !code[c.pc].Jmp? && !code[c.pc].Split? && !code[c.pc].Save?
  }

  lemma MatchRests(code: Code, c: Conf)
    ensures AtMatch(code, c) ==> Rests(code, c)
  {
  }

  /** `m` is the end of a fragment or the JMP behind it that leads there. */
  predicate DeadEnd(code: Code, m: nat, hi: nat) {
    m == hi || (m < |code| && code[m] == Jmp(hi))
  }

  lemma AfterDeadEnd(code: Code, s: seq<Byte>, lo: nat, hi: nat, c: Conf, d: Conf, n: nat)
    requires Run(code, s, lo, hi, c, d, n) && DeadEnd(code, c.pc, hi)
    ensures d == c || d.pc == hi
  {
    if n > 0 {
      var c' :| Moves(code, s, c, c') && Run(code, s, lo, hi, c', d, n - 1);
    }
  }

  /** A run inside a closed fragment stays in the fragment when nothing follows it. */
  lemma {:induction false} StaysInside(code: Code, s: seq<Byte>, lo: nat, hi: nat, b: nat, m: nat, c: Conf, d: Conf,
                                       n: nat)
    requires Run(code, s, lo, hi, c, d, n) && Rests(code, d) && d.pc < hi
    requires lo <= b <= m <= hi && Closed(code, b, m) && b <= c.pc <= m && DeadEnd(code, m, hi)
    ensures b <= d.pc < m && Run(code, s, b, m, c, d, n)
    decreases n
  {
    if c.pc == m {
      AfterDeadEnd(code, s, lo, hi, c, d, n);
    } else if n > 0 {
      var c' :| Moves(code, s, c, c') && Run(code, s, lo, hi, c', d, n - 1);
      assert StaysIn(code[c.pc], c.pc, b, m);
      StaysInside(code, s, lo, hi, b, m, c', d, n - 1);
    }
  }

  /** Plain trees contain no MATCH. */
  lemma {:induction false} PlainHasNoMatch(code: Code, b: nat, re: Regex, pc: nat)
    requires Plain(re) && Layout(code, b, re) && b <= pc < b + ProgramLen(re)
    ensures pc < |code| && !code[pc].Match?
    decreases re
  {
    hide Layout, ProgramLen, LeafInst;
    match re
    case Nil => UnfoldNil(code, b);
    case Alt(l, r) =>
      UnfoldAlt(code, b, l, r);
      if b < pc < b + 1 + ProgramLen(l) { PlainHasNoMatch(code, b + 1, l, pc); }
      if b + 1 + ProgramLen(l) < pc { PlainHasNoMatch(code, b + 2 + ProgramLen(l), r, pc); }
    case Cat(l, r) =>
      UnfoldCat(code, b, l, r);
      if pc < b + ProgramLen(l) { PlainHasNoMatch(code, b, l, pc); }
      else { PlainHasNoMatch(code, b + ProgramLen(l), r, pc); }
    case Paren(g, r) =>
      UnfoldParen(code, b, g, r);
      if b < pc < b + 1 + ProgramLen(r) { PlainHasNoMatch(code, b + 1, r, pc); }
    case Quest(r, greedy) =>
      UnfoldQuest(code, b, r, greedy);
      if b < pc { PlainHasNoMatch(code, b + 1, r, pc); }
    case Star(r, greedy) =>
      UnfoldStar(code, b, r, greedy);
      if b < pc < b + 1 + ProgramLen(r) { PlainHasNoMatch(code, b + 1, r, pc); }
    case Plus(r, greedy) =>
      UnfoldPlus(code, b, r, greedy);
      if pc < b + ProgramLen(r) { PlainHasNoMatch(code, b, r, pc); }
    case _ => UnfoldLeaf(code, b, re);
  }

  /** The groups a fragment saves are those written in its tree. */
  lemma {:induction false} LayoutGroups(code: Code, b: nat, re: Regex, lo: nat, hi: nat, pc: nat)
    requires Layout(code, b, re) && GroupsWithin(re, lo, hi)
    requires b <= pc < b + ProgramLen(re) && pc < |code| && code[pc].Save?
    ensures 2 * lo <= code[pc].group < 2 * hi
    decreases re
  {
    hide Layout, ProgramLen, LeafInst;
    match re
    case Nil => UnfoldNil(code, b);
    case Alt(l, r) =>
      UnfoldAlt(code, b, l, r);
      if pc < b + 1 + ProgramLen(l) { LayoutGroups(code, b + 1, l, lo, hi, pc); }
      else { LayoutGroups(code, b + 2 + ProgramLen(l), r, lo, hi, pc); }
    case Cat(l, r) =>
      UnfoldCat(code, b, l, r);
      if pc < b + ProgramLen(l) { LayoutGroups(code, b, l, lo, hi, pc); }
      else { LayoutGroups(code, b + ProgramLen(l), r, lo, hi, pc); }
    case Paren(g, r) =>
      UnfoldParen(code, b, g, r);
      if b < pc < b + 1 + ProgramLen(r) { LayoutGroups(code, b + 1, r, lo, hi, pc); }
    case Quest(r, greedy) =>
      UnfoldQuest(code, b, r, greedy);
      LayoutGroups(code, b + 1, r, lo, hi, pc);
    case Star(r, greedy) =>
      UnfoldStar(code, b, r, greedy);
      LayoutGroups(code, b + 1, r, lo, hi, pc);
    case Plus(r, greedy) =>
      UnfoldPlus(code, b, r, greedy);
      LayoutGroups(code, b, r, lo, hi, pc);
    case Toplevel(r, id) =>
      UnfoldToplevel(code, b, r, id);
      LayoutGroups(code, b, r, lo, hi, pc);
    case _ => UnfoldLeaf(code, b, re);
  }

  lemma {:induction false} RunKeeps(code: Code, s: seq<Byte>, lo: nat, hi: nat, c: Conf, d: Conf, n: nat, slot: nat)
    requires Run(code, s, lo, hi, c, d, n) && hi <= |code| && slot < |c.vec|
    requires forall pc :: lo <= pc < hi && code[pc].Save? ==> code[pc].group != slot
    ensures |d.vec| == |c.vec| && d.vec[slot] == c.vec[slot]
    decreases n
  {
    if n > 0 {
      var c' :| Moves(code, s, c, c') && Run(code, s, lo, hi, c', d, n - 1);
      RunKeeps(code, s, lo, hi, c', d, n - 1, slot);
    }
  }

  lemma FirstSave(code: Code, s: seq<Byte>, lo: nat, hi: nat, c: Conf, d: Conf, n: nat) returns (c': Conf)
    requires Run(code, s, lo, hi, c, d, n) && c.pc != d.pc
    requires c.pc < |code| && code[c.pc].Save?
    ensures n > 0 && Run(code, s, lo, hi, c', d, n - 1)
    ensures c' == Conf(c.pc + 1, c.pos, SetCapture(c.vec, code[c.pc].group, c.pos))
  {
    c' := FirstMove(code, s, lo, hi, c, d, n);
  }

  lemma StopsAtMatch(code: Code, s: seq<Byte>, lo: nat, hi: nat, c: Conf, d: Conf, n: nat)
    requires Run(code, s, lo, hi, c, d, n) && AtMatch(code, c)
    ensures n == 0 && c == d
  {
  }

  /** The vector records where the match of a branch starts and ends. */
  predicate Spans(vec: seq<int>, br: Branch, i: nat, j: nat) {
    2 * br.group + 1 < |vec| ==> vec[2 * br.group] == i && vec[2 * br.group + 1] == j
  }

  lemma PlainParen(g: nat, r: Regex)
    requires Plain(r)
    ensures Plain(Paren(g, r))
  {
  }

  lemma LeafParts(code: Code, br: Branch, id: nat, d: Conf)
    requires br.WellFormed()
    ensures Leaf(br, id) == Toplevel(Paren(br.group, br.tree), id) && Plain(br.tree) && Plain(Paren(br.group, br.tree))
    ensures AtMatch(code, d) <==> d.pc < |code| && code[d.pc].Match?
  {
  }

  /** Soundness for one regex: its MATCH is reached only by matching, and then
      its $0 group holds where the match starts and ends. */
  lemma {:induction false} LeafRunMatches(code: Code, s: seq<Byte>, b: nat, br: Branch, id: nat, c: Conf, d: Conf,
                                          n: nat)
    requires br.WellFormed() && Layout(code, b, Leaf(br, id))
    requires c.pc == b && b <= d.pc < b + ProgramLen(Leaf(br, id)) && AtMatch(code, d)
    requires Run(code, s, b, b + ProgramLen(Leaf(br, id)), c, d, n)
    ensures code[d.pc] == Match(id) && Matches(br.tree, s, c.pos, d.pos)
    ensures Spans(d.vec, br, c.pos, d.pos)
  {
    hide *;
    var g, r := br.group, br.tree;
    var body, e := Paren(g, r), b + ProgramLen(Leaf(br, id));
    var m := b + 1 + ProgramLen(r);
    LeafParts(code, br, id, d);
    UnfoldToplevel(code, b, body, id);
    UnfoldParen(code, b, g, r);
    if d.pc < m + 1 { PlainHasNoMatch(code, b, body, d.pc); }
    var c' := FirstSave(code, s, b, e, c, d, n);
    var k, q := Through(code, s, b, e, b + 1, r, c', d, n - 1);
    RunMatches(code, s, b + 1, r, c', q, k);
    var q' := FirstSave(code, s, b, e, q, d, n - 1 - k);
    StopsAtMatch(code, s, b, e, q', d, n - 2 - k);
    LeafSpans(code, s, b, br, c, c', q, q', k);
  }

  lemma LeafSpans(code: Code, s: seq<Byte>, b: nat, br: Branch, c: Conf, c': Conf, q: Conf, q': Conf, k: nat)
    requires br.WellFormed() && Layout(code, b + 1, br.tree)
    requires Run(code, s, b + 1, b + 1 + ProgramLen(br.tree), c', q, k)
    requires c'.vec == SetCapture(c.vec, 2 * br.group, c.pos)
    requires q'.vec == SetCapture(q.vec, 2 * br.group + 1, q'.pos)
    ensures Spans(q'.vec, br, c.pos, q'.pos)
  {
    hide Layout, Run, ProgramLen, GroupsWithin;
    RunBounds(code, s, b + 1, b + 1 + ProgramLen(br.tree), c', q, k);
    LayoutClosed(code, b + 1, br.tree);
    forall pc | b + 1 <= pc < b + 1 + ProgramLen(br.tree) && code[pc].Save?
      ensures code[pc].group != 2 * br.group
    {
      LayoutGroups(code, b + 1, br.tree, br.group + 1, br.group + 1 + br.ncaps, pc);
    }
    if 2 * br.group + 1 < |c.vec| {
      RunKeeps(code, s, b + 1, b + 1 + ProgramLen(br.tree), c', q, k, 2 * br.group);
    }
  }

  /** A run into an alternative runs through one arm. */
  lemma AltRun(code: Code, s: seq<Byte>, b: nat, l: Regex, r: Regex, c: Conf, d: Conf, n: nat)
      returns (inLeft: bool, c': Conf, k: nat)
    requires Layout(code, b, Alt(l, r))
    requires c.pc == b && b <= d.pc < b + ProgramLen(Alt(l, r)) && Rests(code, d)
    requires Run(code, s, b, b + ProgramLen(Alt(l, r)), c, d, n)
    ensures var m := b + 1 + ProgramLen(l);
            && c' == c.(pc := if inLeft then b + 1 else m + 1)
            && (inLeft ==> b < d.pc < m && Layout(code, b + 1, l) && Run(code, s, b + 1, m, c', d, k))
            && (!inLeft ==> m < d.pc < m + 1 + ProgramLen(r) && Layout(code, m + 1, r)
                            && Run(code, s, m + 1, m + 1 + ProgramLen(r), c', d, k))
  {
    hide Layout, Run, ProgramLen, Closed;
    UnfoldAlt(code, b, l, r);
    var e, m := b + ProgramLen(Alt(l, r)), b + 1 + ProgramLen(l);
    c' := FirstSplit'(code, s, b, e, c, d, n);
    k := n - 1;
    inLeft := c'.pc == b + 1;
    if inLeft {
      LayoutClosed(code, b + 1, l);
      StaysInside(code, s, b, e, b + 1, m, c', d, k);
    } else {
      LayoutClosed(code, m + 1, r);
      StaysInside(code, s, b, e, m + 1, e, c', d, k);
    }
  }

  /** Soundness for a set of regexes. */
  lemma {:induction false} ChainRunMatches(code: Code, s: seq<Byte>, b: nat, bs: seq<Branch>, c: Conf, d: Conf,
                                           n: nat) returns (id: nat)
    requires |bs| > 0 && AllWellFormed(bs) && Layout(code, b, Chain(bs))
    requires c.pc == b && b <= d.pc < b + ProgramLen(Chain(bs)) && AtMatch(code, d)
    requires Run(code, s, b, b + ProgramLen(Chain(bs)), c, d, n)
    ensures id < |bs| && code[d.pc] == Match(id) && Matches(bs[id].tree, s, c.pos, d.pos)
    ensures Spans(d.vec, bs[id], c.pos, d.pos)
    decreases |bs|
  {
    hide Layout, Run, Matches, ProgramLen, Spans, Leaf, AtMatch, Rests;
    MatchRests(code, d);
    var last := |bs| - 1;
    if last == 0 {
      id := 0;
      LeafRunMatches(code, s, b, bs[0], 0, c, d, n);
    } else {
      var inLeft, c', k := AltRun(code, s, b, Chain(bs[..last]), Leaf(bs[last], last), c, d, n);
      if inLeft {
        id := ChainRunMatches(code, s, b + 1, bs[..last], c', d, k);
      } else {
        id := last;
        LeafRunMatches(code, s, c'.pc, bs[last], last, c', d, k);
      }
    }
  }

  /** No run rests at a SPLIT, so a run from one moves on. */
  lemma FirstSplit'(code: Code, s: seq<Byte>, lo: nat, hi: nat, c: Conf, d: Conf, n: nat) returns (c': Conf)
    requires Run(code, s, lo, hi, c, d, n) && Rests(code, d)
    requires c.pc < |code| && code[c.pc].Split?
    ensures n > 0 && Run(code, s, lo, hi, c', d, n - 1)
    ensures c' == c.(pc := code[c.pc].x) || c' == c.(pc := code[c.pc].y)
  {
    c' := FirstMove(code, s, lo, hi, c, d, n);
  }

  /** Completeness for one regex. */
  lemma MatchesLeafRun(code: Code, s: seq<Byte>, b: nat, br: Branch, id: nat, c: Conf, j: nat) returns (d: Conf, n: nat)
    requires Plain(br.tree) && Layout(code, b, Leaf(br, id))
    requires c.pc == b && Matches(br.tree, s, c.pos, j)
    ensures d.pos == j && b <= d.pc < b + ProgramLen(Leaf(br, id)) && code[d.pc] == Match(id)
    ensures Run(code, s, b, b + ProgramLen(Leaf(br, id)), c, d, n)
  {
    hide Layout, Run, Matches, ProgramLen, Plain;
    var body := Paren(br.group, br.tree);
    PlainParen(br.group, br.tree);
    ParenMatches(br.group, br.tree, s, c.pos, j);
    UnfoldToplevel(code, b, body, id);
    UnfoldParen(code, b, br.group, br.tree);
    d, n := MatchesRun(code, s, b, body, c, j);
    RunWiden(code, s, b, b + ProgramLen(body), b, b + ProgramLen(Leaf(br, id)), c, d, n);
  }

  /** Completeness for a set of regexes. */
  lemma {:induction false} MatchesChainRun(code: Code, s: seq<Byte>, b: nat, bs: seq<Branch>, id: nat, c: Conf, j: nat)
    returns (d: Conf, n: nat)
    requires AllWellFormed(bs) && id < |bs| && Layout(code, b, Chain(bs))
    requires c.pc == b && Matches(bs[id].tree, s, c.pos, j)
    ensures d.pos == j && b <= d.pc < b + ProgramLen(Chain(bs)) && d.pc < |code| && code[d.pc] == Match(id)
    ensures Run(code, s, b, b + ProgramLen(Chain(bs)), c, d, n)
    decreases |bs|
  {
    hide Layout, Run, Matches, ProgramLen, Leaf;
    var last := |bs| - 1;
    if last == 0 {
      d, n := MatchesLeafRun(code, s, b, bs[0], 0, c, j);
      LayoutClosed(code, b, Chain(bs));
    } else {
      var l, r := Chain(bs[..last]), Leaf(bs[last], last);
      UnfoldAlt(code, b, l, r);
      SplitMoves(code, s, c);
      var e, m := b + ProgramLen(Chain(bs)), b + 1 + ProgramLen(l);
      var c': Conf;
      if id < last {
        c' := c.(pc := b + 1);
        d, n := MatchesChainRun(code, s, b + 1, bs[..last], id, c', j);
        RunWiden(code, s, b + 1, m, b, e, c', d, n);
      } else {
        c' := c.(pc := m + 1);
        d, n := MatchesLeafRun(code, s, m + 1, bs[last], last, c', j);
        RunWiden(code, s, m + 1, e, b, e, c', d, n);
      }
      MoveRun(code, s, b, e, c, c', d, n);
      n := n + 1;
    }
  }

  /** The search loop can hand over to the regexes at any position ... */
  lemma {:induction false} SearchRun(code: Code, s: seq<Byte>, c: Conf, i: nat) returns (n: nat)
    requires Searching(code) && c.pc == 0 && c.pos <= i <= |s|
    ensures Run(code, s, 0, |code|, c, Conf(3, i, c.vec), n)
    decreases i - c.pos
  {
    SplitMoves(code, s, c);
    if c.pos == i {
      StandStill(code, s, 0, |code|, c.(pc := 3));
      MoveRun(code, s, 0, |code|, c, c.(pc := 3), c.(pc := 3), 0);
      n := 1;
    } else {
      var c1, c2, c3 := c.(pc := 1), Conf(2, c.pos + 1, c.vec), Conf(0, c.pos + 1, c.vec);
      n := SearchRun(code, s, c3, i);
      assert Next(code, s, c2)[0] == c3 && Next(code, s, c1)[0] == c2;
      MoveRun(code, s, 0, |code|, c2, c3, Conf(3, i, c.vec), n);
      MoveRun(code, s, 0, |code|, c1, c2, Conf(3, i, c.vec), n + 1);
      MoveRun(code, s, 0, |code|, c, c1, Conf(3, i, c.vec), n + 2);
      n := n + 3;
    }
  }

  /** ... and a run to a MATCH leaves it at one position, for good. */
  lemma {:induction false} SearchLeft(code: Code, s: seq<Byte>, c: Conf, d: Conf, n: nat) returns (i: nat, k: nat)
    requires Searching(code) && c.pc < 3 && d.pc >= 3
    requires Run(code, s, 0, |code|, c, d, n)
    ensures c.pos <= i <= d.pos && Run(code, s, 3, |code|, Conf(3, i, c.vec), d, k)
    decreases n
  {
    var c' :| Moves(code, s, c, c') && Run(code, s, 0, |code|, c', d, n - 1);
    if c'.pc == 3 {
      i, k := c'.pos, n - 1;
      RunBounds(code, s, 0, |code|, c', d, n - 1);
      StaysBehind(code, s, c', d, n - 1);
    } else {
      i, k := SearchLeft(code, s, c', d, n - 1);
    }
  }

  lemma {:induction false} StaysBehind(code: Code, s: seq<Byte>, c: Conf, d: Conf, n: nat)
    requires Searching(code) && c.pc >= 3 && Run(code, s, 0, |code|, c, d, n)
    ensures Run(code, s, 3, |code|, c, d, n) && d.pc >= 3
    decreases n
  {
    if n > 0 {
      var c' :| Moves(code, s, c, c') && Run(code, s, 0, |code|, c', d, n - 1);
      assert StaysIn(code[c.pc], c.pc, 3, |code|);
      StaysBehind(code, s, c', d, n - 1);
    }
  }

  /** Some run from the start of the stream is at a MATCH at position `p`. */
  ghost predicate Accepting(code: Code, s: seq<Byte>, p: nat) {
    exists d: Conf :: d.pos == p && AtMatch(code, d) && Reaches(code, s, Conf(0, 0, []), d)
  }

  /** Some regex of the set matches the bytes that end at `p`. */
  ghost predicate MatchEnds(bs: seq<Branch>, s: seq<Byte>, p: nat) {
    exists id: nat, i: nat :: id < |bs| && i <= p && Matches(bs[id].tree, s, i, p)
  }

  /** A whole program reaches a MATCH at `p` exactly when one of its regexes
      matches a stretch of the stream that ends at `p`. */
  lemma ProgramAccepts(code: Code, bs: seq<Branch>, s: seq<Byte>, p: nat)
    requires ProgramOf(code, bs) && p <= |s|
    ensures Accepting(code, s, p) <==> MatchEnds(bs, s, p)
  {
    hide Layout, Run, Matches, ProgramLen;
    ProgramSearches(code, bs);
    if d: Conf :| d.pos == p && AtMatch(code, d) && Reaches(code, s, Conf(0, 0, []), d) {
      var n: nat :| Run(code, s, 0, |code|, Conf(0, 0, []), d, n);
      var i, k := SearchLeft(code, s, Conf(0, 0, []), d, n);
      var id := ChainRunMatches(code, s, 3, bs, Conf(3, i, []), d, k);
    }
    if id: nat, i: nat :| id < |bs| && i <= p && Matches(bs[id].tree, s, i, p) {
      var n := SearchRun(code, s, Conf(0, 0, []), i);
      var d, k := MatchesChainRun(code, s, 3, bs, id, Conf(3, i, []), p);
      RunWiden(code, s, 3, |code|, 0, |code|, Conf(3, i, []), d, k);
      RunAppend(code, s, 0, |code|, Conf(0, 0, []), Conf(3, i, []), d, n, k);
    }
  }

  /** With captures: a MATCH reached by a run names a regex that matches what
      its $0 window says. */
  lemma ProgramRunMatches(code: Code, bs: seq<Branch>, s: seq<Byte>, i: nat, vec: seq<int>, d: Conf, n: nat)
      returns (id: nat)
    requires ProgramOf(code, bs)
    requires Run(code, s, 3, |code|, Conf(3, i, vec), d, n) && AtMatch(code, d) && d.pc >= 3
    ensures id < |bs| && code[d.pc] == Match(id) && Matches(bs[id].tree, s, i, d.pos) && Spans(d.vec, bs[id], i, d.pos)
  {
    hide Layout, Run, Matches, ProgramLen, Spans;
    ProgramSearches(code, bs);
    id := ChainRunMatches(code, s, 3, bs, Conf(3, i, vec), d, n);
  }

  /* Code closure. */

  predicate Target(inst: Inst, pc: nat, t: nat) {
    match inst
    case Jmp(x) => t == x
    case Split(x, y) => t == x || t == y
    case Match(_) => false
    case _ => t == pc + 1
  }

  /** Not the JMP behind a MATCH. */
  predicate Live(code: Code, pc: nat) {
    pc < |code| && (pc > 0 ==> !code[pc - 1].Match?)
  }

  lemma LeafLive(code: Code, b: nat, br: Branch, id: nat, pc: nat, t: nat)
    requires b > 0 && Plain(br.tree) && Layout(code, b, Leaf(br, id))
    requires b <= pc < b + ProgramLen(Leaf(br, id)) && Target(code[pc], pc, t)
    ensures b < t < b + ProgramLen(Leaf(br, id)) && Live(code, t)
  {
    hide Layout, ProgramLen, Plain;
    var body := Paren(br.group, br.tree);
    PlainParen(br.group, br.tree);
    UnfoldToplevel(code, b, body, id);
    UnfoldParen(code, b, br.group, br.tree);
    if b < pc < b + 1 + ProgramLen(br.tree) {
      LayoutWithin(code, b + 1, br.tree, b + 1, b + 1 + ProgramLen(br.tree));
      assert StaysIn(code[pc], pc, b + 1, b + 1 + ProgramLen(br.tree));
    }
    PlainHasNoMatch(code, b, body, t - 1);
  }

  lemma {:induction false} ChainLive(code: Code, b: nat, bs: seq<Branch>, pc: nat, t: nat)
    requires b > 0 && |bs| > 0 && AllWellFormed(bs) && Layout(code, b, Chain(bs))
    requires b <= pc < b + ProgramLen(Chain(bs)) && Live(code, pc) && Target(code[pc], pc, t)
    ensures b < t < b + ProgramLen(Chain(bs)) && Live(code, t)
    decreases |bs|
  {
    hide Layout, ProgramLen, Leaf, Plain;
    var last := |bs| - 1;
    if last == 0 {
      LeafLive(code, b, bs[0], 0, pc, t);
    } else {
      var l, r := Chain(bs[..last]), Leaf(bs[last], last);
      var m := b + 1 + ProgramLen(l);
      UnfoldAlt(code, b, l, r);
      ChainEnds(code, b + 1, bs[..last]);
      if b < pc < m {
        ChainLive(code, b + 1, bs[..last], pc, t);
      } else if m < pc {
        LeafLive(code, m + 1, bs[last], last, pc, t);
      } else {
        LeafNotEmpty(bs[last], last);
      }
    }
  }

  lemma LeafNotEmpty(br: Branch, id: nat)
    ensures ProgramLen(Leaf(br, id)) > 0
  {
  }

  /** The last instruction of a set of regexes is a MATCH. */
  lemma ChainEnds(code: Code, b: nat, bs: seq<Branch>)
    requires |bs| > 0 && Layout(code, b, Chain(bs))
    ensures ProgramLen(Chain(bs)) > 0 && b + ProgramLen(Chain(bs)) <= |code|
    ensures code[b + ProgramLen(Chain(bs)) - 1].Match?
  {
    hide Layout;
    var last := |bs| - 1;
    if last > 0 { UnfoldAlt(code, b, Chain(bs[..last]), Leaf(bs[last], last)); }
    var start := b + ProgramLen(Chain(bs)) - ProgramLen(Leaf(bs[last], last));
    UnfoldToplevel(code, start, Paren(bs[last].group, bs[last].tree), last);
  }

  /** Every target of a live instruction is live, hence inside the code. */
  lemma ProgramLive(code: Code, bs: seq<Branch>, pc: nat, t: nat)
    requires ProgramOf(code, bs) && Live(code, pc) && Target(code[pc], pc, t)
    ensures Live(code, t)
  {
    hide Layout, ProgramLen, Leaf, Plain;
    ProgramSearches(code, bs);
    if pc >= 3 { ChainLive(code, 3, bs, pc, t); }
  }

  lemma MovesTarget(code: Code, s: seq<Byte>, c: Conf, d: Conf)
    requires c.pc < |code| && Moves(code, s, c, d)
    ensures Target(code[c.pc], c.pc, d.pc)
  {
  }

  /** No run from the start leaves the code or meets the JMP behind a MATCH. */
  lemma {:induction false} ProgramClosed(code: Code, bs: seq<Branch>, s: seq<Byte>, c: Conf, d: Conf, n: nat)
    requires ProgramOf(code, bs) && Live(code, c.pc) && Run(code, s, 0, |code|, c, d, n)
    ensures Live(code, d.pc)
    decreases n
  {
    hide ProgramOf, Live, Moves, Target;
    if n > 0 {
      var b := RunLast(code, s, 0, |code|, c, d, n);
      ProgramClosed(code, bs, s, c, b, n - 1);
      MovesTarget(code, s, b, d);
      ProgramLive(code, bs, b.pc, d.pc);
    }
  }
}
