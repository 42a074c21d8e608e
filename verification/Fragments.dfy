/** Compilation preserves meaning: a run from the first index of a fragment to
    its end exists exactly when the tree matches the bytes passed. */
module Fragments {
  import opened Regexes
  import opened Bytecode
  import opened Compiler

  /** The first step of a run that does something. */
  lemma FirstMove(code: Code, s: seq<Byte>, lo: nat, hi: nat, c: Conf, d: Conf, n: nat) returns (c': Conf)
    requires Run(code, s, lo, hi, c, d, n) && c.pc != d.pc
    ensures n > 0 && Moves(code, s, c, c') && Run(code, s, lo, hi, c', d, n - 1)
  {
    c' :| Moves(code, s, c, c') && Run(code, s, lo, hi, c', d, n - 1);
  }

  lemma FirstSplit(code: Code, s: seq<Byte>, lo: nat, hi: nat, c: Conf, d: Conf, n: nat) returns (c': Conf)
    requires Run(code, s, lo, hi, c, d, n) && c.pc != d.pc
    requires c.pc < |code| && code[c.pc].Split?
    ensures n > 0 && Run(code, s, lo, hi, c', d, n - 1)
    ensures c'.pos == c.pos && (c'.pc == code[c.pc].x || c'.pc == code[c.pc].y)
  {
    c' := FirstMove(code, s, lo, hi, c, d, n);
  }

  lemma FirstJump(code: Code, s: seq<Byte>, lo: nat, hi: nat, c: Conf, d: Conf, n: nat) returns (c': Conf)
    requires Run(code, s, lo, hi, c, d, n) && c.pc != d.pc
    requires c.pc < |code| && (code[c.pc].Jmp? || code[c.pc].Save?)
    ensures n > 0 && Run(code, s, lo, hi, c', d, n - 1)
    ensures c'.pos == c.pos && c'.pc == if code[c.pc].Jmp? then code[c.pc].x else c.pc + 1
  {
    c' := FirstMove(code, s, lo, hi, c, d, n);
  }

  lemma EndsThere(code: Code, s: seq<Byte>, lo: nat, hi: nat, c: Conf, d: Conf, n: nat)
    requires Run(code, s, lo, hi, c, d, n) && c.pc == hi
    ensures n == 0 && c == d
  {
  }

  /** A run that enters the code of a tree and ends outside it goes through the
      whole of that code first. */
  lemma Through(code: Code, s: seq<Byte>, lo: nat, hi: nat, b: nat, re: Regex, c: Conf, d: Conf, n: nat)
    returns (k: nat, q: Conf)
    requires Layout(code, b, re) && lo <= b && b + ProgramLen(re) <= hi
    requires Run(code, s, lo, hi, c, d, n) && c.pc == b && !(b <= d.pc < b + ProgramLen(re))
    ensures k <= n && q.pc == b + ProgramLen(re)
    ensures Run(code, s, b, b + ProgramLen(re), c, q, k)
    ensures Run(code, s, lo, hi, q, d, n - k)
  {
    hide *;
    LayoutClosed(code, b, re);
    k, q := SplitRun(code, s, lo, hi, b, b + ProgramLen(re), c, d, n);
  }

  lemma AltMatches(l: Regex, r: Regex, s: seq<Byte>, i: nat, j: nat)
    requires Matches(l, s, i, j) || Matches(r, s, i, j)
    ensures Matches(Alt(l, r), s, i, j)
  {
  }

  lemma CatMatches(l: Regex, r: Regex, s: seq<Byte>, i: nat, k: nat, j: nat)
    requires Matches(l, s, i, k) && Matches(r, s, k, j)
    ensures Matches(Cat(l, r), s, i, j)
  {
  }

  lemma ParenMatches(g: nat, r: Regex, s: seq<Byte>, i: nat, j: nat)
    requires Matches(r, s, i, j)
    ensures Matches(Paren(g, r), s, i, j)
  {
  }

  lemma StarMatchesNothing(r: Regex, greedy: bool, s: seq<Byte>, i: nat)
    ensures Matches(Star(r, greedy), s, i, i)
  {
    assert Repeats(r, s, i, i, 0);
  }

  lemma StarMatches(r: Regex, greedy: bool, s: seq<Byte>, i: nat, k: nat, j: nat)
    requires Matches(r, s, i, k) && Matches(Star(r, greedy), s, k, j)
    ensures Matches(Star(r, greedy), s, i, j)
  {
    var n: nat :| Repeats(r, s, k, j, n);
    assert Repeats(r, s, i, j, n + 1);
  }

  lemma PlusMatches(r: Regex, greedy: bool, s: seq<Byte>, i: nat, k: nat, j: nat)
    requires Matches(r, s, i, k) && (k == j || Matches(Plus(r, greedy), s, k, j))
    ensures Matches(Plus(r, greedy), s, i, j)
  {
    if k == j {
      assert Repeats(r, s, k, j, 0);
      assert Repeats(r, s, i, j, 1);
    } else {
      var n: nat :| n >= 1 && Repeats(r, s, k, j, n);
      assert Repeats(r, s, i, j, n + 1);
    }
  }

  /** Soundness: a run through the code of `re` spells out a match. */
  lemma {:induction false} RunMatches(code: Code, s: seq<Byte>, b: nat, re: Regex, c: Conf, d: Conf, n: nat)
    requires Plain(re) && Layout(code, b, re)
    requires c.pc == b && d.pc == b + ProgramLen(re)
    requires Run(code, s, b, b + ProgramLen(re), c, d, n)
    ensures Matches(re, s, c.pos, d.pos)
    decreases re, n, 1
  {
    hide Layout, Run, ProgramLen, Matches;
    match re
    case Nil => RunMatchesNil(code, s, b, c, d, n);
    case Alt(l, r) => RunMatchesAlt(code, s, b, l, r, c, d, n);
    case Cat(l, r) => RunMatchesCat(code, s, b, l, r, c, d, n);
    case Paren(g, r) => RunMatchesParen(code, s, b, g, r, c, d, n);
    case Quest(r, greedy) => RunMatchesQuest(code, s, b, r, greedy, c, d, n);
    case Star(r, greedy) => RunMatchesStar(code, s, b, r, greedy, c, d, n);
    case Plus(r, greedy) => RunMatchesPlus(code, s, b, r, greedy, c, d, n);
    case Toplevel(_, _) =>
    case _ => RunMatchesLeaf(code, s, b, re, c, d, n);
  }

  lemma PlainLoop(r: Regex, greedy: bool)
    requires Plain(r)
    ensures Plain(Star(r, greedy)) && Plain(Plus(r, greedy))
  {
  }

  lemma RunMatchesNil(code: Code, s: seq<Byte>, b: nat, c: Conf, d: Conf, n: nat)
    requires Layout(code, b, Nil) && c.pc == b && Run(code, s, b, b + ProgramLen(Nil), c, d, n)
    ensures Matches(Nil, s, c.pos, d.pos)
  {
    hide Layout, Run;
    EndsThere(code, s, b, b, c, d, n);
  }

  lemma RunMatchesLeaf(code: Code, s: seq<Byte>, b: nat, re: Regex, c: Conf, d: Conf, n: nat)
    requires IsLeaf(re) && Layout(code, b, re) && c.pc == b && d.pc == b + ProgramLen(re)
    requires Run(code, s, b, b + ProgramLen(re), c, d, n)
    ensures Matches(re, s, c.pos, d.pos)
  {
    hide Layout, Run, ProgramLen;
    UnfoldLeaf(code, b, re);
    var c' := FirstMove(code, s, b, b + 1, c, d, n);
    EndsThere(code, s, b, b + 1, c', d, n - 1);
  }

  lemma {:induction false} RunMatchesAlt(code: Code, s: seq<Byte>, b: nat, l: Regex, r: Regex, c: Conf, d: Conf, n: nat)
    requires Plain(l) && Plain(r) && Layout(code, b, Alt(l, r))
    requires c.pc == b && d.pc == b + ProgramLen(Alt(l, r))
    requires Run(code, s, b, b + ProgramLen(Alt(l, r)), c, d, n)
    ensures Matches(Alt(l, r), s, c.pos, d.pos)
    decreases Alt(l, r), n, 0
  {
    hide *;
    UnfoldAlt(code, b, l, r);
    var e, m := b + ProgramLen(Alt(l, r)), b + 1 + ProgramLen(l);
    var c' := FirstSplit(code, s, b, e, c, d, n);
    if c'.pc == b + 1 {
      var k, q := Through(code, s, b, e, b + 1, l, c', d, n - 1);
      RunMatches(code, s, b + 1, l, c', q, k);
      var q' := FirstJump(code, s, b, e, q, d, n - 1 - k);
      EndsThere(code, s, b, e, q', d, n - 2 - k);
      AltMatches(l, r, s, c.pos, d.pos);
    } else {
      var k, q := Through(code, s, b, e, m + 1, r, c', d, n - 1);
      RunMatches(code, s, m + 1, r, c', q, k);
      EndsThere(code, s, b, e, q, d, n - 1 - k);
      AltMatches(l, r, s, c.pos, d.pos);
    }
  }

  lemma {:induction false} RunMatchesCat(code: Code, s: seq<Byte>, b: nat, l: Regex, r: Regex, c: Conf, d: Conf, n: nat)
    requires Plain(l) && Plain(r) && Layout(code, b, Cat(l, r))
    requires c.pc == b && d.pc == b + ProgramLen(Cat(l, r))
    requires Run(code, s, b, b + ProgramLen(Cat(l, r)), c, d, n)
    ensures Matches(Cat(l, r), s, c.pos, d.pos)
    decreases Cat(l, r), n, 0
  {
    hide *;
    UnfoldCat(code, b, l, r);
    var e, m := b + ProgramLen(Cat(l, r)), b + ProgramLen(l);
    var k, q := Through(code, s, b, e, b, l, c, d, n);
    RunMatches(code, s, b, l, c, q, k);
    var k', q' := Through(code, s, b, e, m, r, q, d, n - k);
    EndsThere(code, s, b, e, q', d, n - k - k');
    RunMatches(code, s, m, r, q, q', k');
    CatMatches(l, r, s, c.pos, q.pos, d.pos);
  }

  lemma {:induction false} RunMatchesParen(code: Code, s: seq<Byte>, b: nat, g: nat, r: Regex, c: Conf, d: Conf, n: nat)
    requires Plain(r) && Layout(code, b, Paren(g, r))
    requires c.pc == b && d.pc == b + ProgramLen(Paren(g, r))
    requires Run(code, s, b, b + ProgramLen(Paren(g, r)), c, d, n)
    ensures Matches(Paren(g, r), s, c.pos, d.pos)
    decreases Paren(g, r), n, 0
  {
    hide *;
    UnfoldParen(code, b, g, r);
    var e := b + ProgramLen(Paren(g, r));
    var c' := FirstJump(code, s, b, e, c, d, n);
    var k, q := Through(code, s, b, e, b + 1, r, c', d, n - 1);
    RunMatches(code, s, b + 1, r, c', q, k);
    var q' := FirstJump(code, s, b, e, q, d, n - 1 - k);
    EndsThere(code, s, b, e, q', d, n - 2 - k);
    ParenMatches(g, r, s, c.pos, d.pos);
  }

  lemma {:induction false} RunMatchesQuest(code: Code, s: seq<Byte>, b: nat, r: Regex, greedy: bool, c: Conf, d: Conf,
                                           n: nat)
    requires Plain(r) && Layout(code, b, Quest(r, greedy))
    requires c.pc == b && d.pc == b + ProgramLen(Quest(r, greedy))
    requires Run(code, s, b, b + ProgramLen(Quest(r, greedy)), c, d, n)
    ensures Matches(Quest(r, greedy), s, c.pos, d.pos)
    decreases Quest(r, greedy), n, 0
  {
    hide *;
    UnfoldQuest(code, b, r, greedy);
    var e := b + ProgramLen(Quest(r, greedy));
    var c' := FirstSplit(code, s, b, e, c, d, n);
    if c'.pc == e {
      EndsThere(code, s, b, e, c', d, n - 1);
    } else {
      var k, q := Through(code, s, b, e, b + 1, r, c', d, n - 1);
      RunMatches(code, s, b + 1, r, c', q, k);
      EndsThere(code, s, b, e, q, d, n - 1 - k);
    }
    assert c.pos == d.pos || Matches(r, s, c.pos, d.pos);
    QuestMatches(r, greedy, s, c.pos, d.pos);
  }

  lemma {:induction false} RunMatchesStar(code: Code, s: seq<Byte>, b: nat, r: Regex, greedy: bool, c: Conf, d: Conf,
                                          n: nat)
    requires Plain(r) && Layout(code, b, Star(r, greedy))
    requires c.pc == b && d.pc == b + ProgramLen(Star(r, greedy))
    requires Run(code, s, b, b + ProgramLen(Star(r, greedy)), c, d, n)
    ensures Matches(Star(r, greedy), s, c.pos, d.pos)
    decreases Star(r, greedy), n, 0
  {
    hide *;
    UnfoldStar(code, b, r, greedy);
    var e := b + ProgramLen(Star(r, greedy));
    var c' := FirstSplit(code, s, b, e, c, d, n);
    if c'.pc == e {
      EndsThere(code, s, b, e, c', d, n - 1);
      StarMatchesNothing(r, greedy, s, c.pos);
    } else {
      var k, q := Through(code, s, b, e, b + 1, r, c', d, n - 1);
      RunMatches(code, s, b + 1, r, c', q, k);
      var q' := FirstJump(code, s, b, e, q, d, n - 1 - k);
      PlainLoop(r, greedy);
      RunMatches(code, s, b, Star(r, greedy), q', d, n - 2 - k);
      StarMatches(r, greedy, s, c.pos, q'.pos, d.pos);
    }
  }

  lemma {:induction false} RunMatchesPlus(code: Code, s: seq<Byte>, b: nat, r: Regex, greedy: bool, c: Conf, d: Conf,
                                          n: nat)
    requires Plain(r) && Layout(code, b, Plus(r, greedy))
    requires c.pc == b && d.pc == b + ProgramLen(Plus(r, greedy))
    requires Run(code, s, b, b + ProgramLen(Plus(r, greedy)), c, d, n)
    ensures Matches(Plus(r, greedy), s, c.pos, d.pos)
    decreases Plus(r, greedy), n, 0
  {
    hide *;
    UnfoldPlus(code, b, r, greedy);
    var e := b + ProgramLen(Plus(r, greedy));
    var k, q := Through(code, s, b, e, b, r, c, d, n);
    RunMatches(code, s, b, r, c, q, k);
    var q' := FirstSplit(code, s, b, e, q, d, n - k);
    if q'.pc == e {
      EndsThere(code, s, b, e, q', d, n - k - 1);
    } else {
      PlainLoop(r, greedy);
      RunMatches(code, s, b, Plus(r, greedy), q', d, n - k - 1);
    }
    PlusMatches(r, greedy, s, c.pos, q'.pos, d.pos);
  }

  lemma MoveRun(code: Code, s: seq<Byte>, lo: nat, hi: nat, c: Conf, c': Conf, d: Conf, n: nat)
    requires lo <= c.pc < hi && Moves(code, s, c, c') && Run(code, s, lo, hi, c', d, n)
    ensures Run(code, s, lo, hi, c, d, n + 1)
  {
  }

  lemma StandStill(code: Code, s: seq<Byte>, lo: nat, hi: nat, c: Conf)
    ensures Run(code, s, lo, hi, c, c, 0)
  {
  }

  lemma SplitMoves(code: Code, s: seq<Byte>, c: Conf)
    requires c.pc < |code| && code[c.pc].Split?
    ensures Moves(code, s, c, c.(pc := code[c.pc].x)) && Moves(code, s, c, c.(pc := code[c.pc].y))
  {
    assert Next(code, s, c)[0] == c.(pc := code[c.pc].x) && Next(code, s, c)[1] == c.(pc := code[c.pc].y);
  }

  lemma JumpMoves(code: Code, s: seq<Byte>, c: Conf) returns (c': Conf)
    requires c.pc < |code| && (code[c.pc].Jmp? || code[c.pc].Save?)
    ensures Moves(code, s, c, c') && c'.pos == c.pos
    ensures c'.pc == if code[c.pc].Jmp? then code[c.pc].x else c.pc + 1
  {
    c' := Next(code, s, c)[0];
  }

  /** Completeness: every match is spelled out by a run through the code. */
  lemma {:induction false} MatchesRun(code: Code, s: seq<Byte>, b: nat, re: Regex, c: Conf, j: nat)
      returns (d: Conf, n: nat)
    requires Plain(re) && Layout(code, b, re)
    requires c.pc == b && Matches(re, s, c.pos, j)
    ensures d.pc == b + ProgramLen(re) && d.pos == j
    ensures Run(code, s, b, b + ProgramLen(re), c, d, n)
    decreases re, 1, 0
  {
    hide Layout, Run, ProgramLen;
    match re
    case Nil =>
      UnfoldNil(code, b);
      StandStill(code, s, b, b, c);
      d, n := c, 0;
    case Alt(l, r) => d, n := MatchesRunAlt(code, s, b, l, r, c, j);
    case Cat(l, r) => d, n := MatchesRunCat(code, s, b, l, r, c, j);
    case Paren(g, r) => d, n := MatchesRunParen(code, s, b, g, r, c, j);
    case Quest(r, greedy) => d, n := MatchesRunQuest(code, s, b, r, greedy, c, j);
    case Star(r, greedy) =>
      var times: nat :| Repeats(r, s, c.pos, j, times);
      d, n := RepeatsRunStar(code, s, b, r, greedy, c, j, times);
    case Plus(r, greedy) =>
      var times: nat :| times >= 1 && Repeats(r, s, c.pos, j, times);
      d, n := RepeatsRunPlus(code, s, b, r, greedy, c, j, times);
    case Toplevel(_, _) => assert false;
    case _ =>
      d := MatchesRunLeaf(code, s, b, re, c, j);
      n := 1;
  }

  lemma MatchesRunLeaf(code: Code, s: seq<Byte>, b: nat, re: Regex, c: Conf, j: nat) returns (d: Conf)
    requires IsLeaf(re) && Layout(code, b, re) && c.pc == b && Matches(re, s, c.pos, j)
    ensures d.pc == b + ProgramLen(re) && d.pos == j && Run(code, s, b, b + ProgramLen(re), c, d, 1)
  {
    hide Layout, Run, ProgramLen;
    UnfoldLeaf(code, b, re);
    d := Conf(b + 1, j, c.vec);
    assert Moves(code, s, c, d) by { assert Next(code, s, c)[0] == d; }
    StandStill(code, s, b, b + 1, d);
    MoveRun(code, s, b, b + 1, c, d, d, 0);
  }

  lemma {:induction false} MatchesRunAlt(code: Code, s: seq<Byte>, b: nat, l: Regex, r: Regex, c: Conf, j: nat)
      returns (d: Conf, n: nat)
    requires Plain(l) && Plain(r) && Layout(code, b, Alt(l, r))
    requires c.pc == b && (Matches(l, s, c.pos, j) || Matches(r, s, c.pos, j))
    ensures d.pc == b + ProgramLen(Alt(l, r)) && d.pos == j
    ensures Run(code, s, b, b + ProgramLen(Alt(l, r)), c, d, n)
    decreases Alt(l, r), 0, 0
  {
    hide *;
    UnfoldAlt(code, b, l, r);
    SplitMoves(code, s, c);
    var e, m := b + ProgramLen(Alt(l, r)), b + 1 + ProgramLen(l);
    if Matches(l, s, c.pos, j) {
      var c' := c.(pc := b + 1);
      var q, k := MatchesRun(code, s, b + 1, l, c', j);
      RunWiden(code, s, b + 1, m, b, e, c', q, k);
      d := JumpMoves(code, s, q);
      StandStill(code, s, b, e, d);
      MoveRun(code, s, b, e, q, d, d, 0);
      RunAppend(code, s, b, e, c', q, d, k, 1);
      n := k + 2;
      MoveRun(code, s, b, e, c, c', d, k + 1);
    } else {
      var c' := c.(pc := m + 1);
      d, n := MatchesRun(code, s, m + 1, r, c', j);
      RunWiden(code, s, m + 1, e, b, e, c', d, n);
      MoveRun(code, s, b, e, c, c', d, n);
      n := n + 1;
    }
  }

  lemma {:induction false} MatchesRunCat(code: Code, s: seq<Byte>, b: nat, l: Regex, r: Regex, c: Conf, j: nat)
      returns (d: Conf, n: nat)
    requires Plain(l) && Plain(r) && Layout(code, b, Cat(l, r))
    requires c.pc == b && exists k: nat :: Matches(l, s, c.pos, k) && Matches(r, s, k, j)
    ensures d.pc == b + ProgramLen(Cat(l, r)) && d.pos == j
    ensures Run(code, s, b, b + ProgramLen(Cat(l, r)), c, d, n)
    decreases Cat(l, r), 0, 0
  {
    hide *;
    UnfoldCat(code, b, l, r);
    var e, m := b + ProgramLen(Cat(l, r)), b + ProgramLen(l);
    var k: nat :| Matches(l, s, c.pos, k) && Matches(r, s, k, j);
    var q, n0 := MatchesRun(code, s, b, l, c, k);
    RunWiden(code, s, b, m, b, e, c, q, n0);
    var q', n1 := MatchesRun(code, s, m, r, q, j);
    RunWiden(code, s, m, e, b, e, q, q', n1);
    RunAppend(code, s, b, e, c, q, q', n0, n1);
    d, n := q', n0 + n1;
  }

  lemma {:induction false} MatchesRunParen(code: Code, s: seq<Byte>, b: nat, g: nat, r: Regex, c: Conf, j: nat)
      returns (d: Conf, n: nat)
    requires Plain(r) && Layout(code, b, Paren(g, r))
    requires c.pc == b && Matches(r, s, c.pos, j)
    ensures d.pc == b + ProgramLen(Paren(g, r)) && d.pos == j
    ensures Run(code, s, b, b + ProgramLen(Paren(g, r)), c, d, n)
    decreases Paren(g, r), 0, 0
  {
    hide *;
    UnfoldParen(code, b, g, r);
    var e, m := b + ProgramLen(Paren(g, r)), b + 1 + ProgramLen(r);
    var c' := JumpMoves(code, s, c);
    var q, k := MatchesRun(code, s, b + 1, r, c', j);
    RunWiden(code, s, b + 1, m, b, e, c', q, k);
    d := JumpMoves(code, s, q);
    StandStill(code, s, b, e, d);
    MoveRun(code, s, b, e, q, d, d, 0);
    RunAppend(code, s, b, e, c', q, d, k, 1);
    n := k + 2;
    MoveRun(code, s, b, e, c, c', d, k + 1);
  }

  lemma {:induction false} MatchesRunQuest(code: Code, s: seq<Byte>, b: nat, r: Regex, greedy: bool, c: Conf, j: nat)
    returns (d: Conf, n: nat)
    requires Plain(r) && Layout(code, b, Quest(r, greedy))
    requires c.pc == b && (c.pos == j || Matches(r, s, c.pos, j))
    ensures d.pc == b + ProgramLen(Quest(r, greedy)) && d.pos == j
    ensures Run(code, s, b, b + ProgramLen(Quest(r, greedy)), c, d, n)
    decreases Quest(r, greedy), 0, 0
  {
    hide *;
    UnfoldQuest(code, b, r, greedy);
    SplitMoves(code, s, c);
    var e := b + ProgramLen(Quest(r, greedy));
    if c.pos == j {
      d, n := c.(pc := e), 1;
      StandStill(code, s, b, e, d);
      MoveRun(code, s, b, e, c, d, d, 0);
    } else {
      var c' := c.(pc := b + 1);
      d, n := MatchesRun(code, s, b + 1, r, c', j);
      RunWiden(code, s, b + 1, e, b, e, c', d, n);
      MoveRun(code, s, b, e, c, c', d, n);
      n := n + 1;
    }
  }

  /** A round of a STAR: enter the body, jump back. */
  lemma {:induction false} RepeatsRunStar(code: Code, s: seq<Byte>, b: nat, r: Regex, greedy: bool, c: Conf, j: nat,
                                          times: nat)
    returns (d: Conf, n: nat)
    requires Plain(r) && Layout(code, b, Star(r, greedy))
    requires c.pc == b && Repeats(r, s, c.pos, j, times)
    ensures d.pc == b + ProgramLen(Star(r, greedy)) && d.pos == j
    ensures Run(code, s, b, b + ProgramLen(Star(r, greedy)), c, d, n)
    decreases Star(r, greedy), 0, times
  {
    hide *;
    UnfoldStar(code, b, r, greedy);
    SplitMoves(code, s, c);
    var e, m := b + ProgramLen(Star(r, greedy)), b + 1 + ProgramLen(r);
    if times == 0 {
      d, n := c.(pc := e), 1;
      NoRepeats(r, s, c.pos, j);
      StandStill(code, s, b, e, d);
      MoveRun(code, s, b, e, c, d, d, 0);
    } else {
      var k := OneRepeat(r, s, c.pos, j, times);
      var c' := c.(pc := b + 1);
      var q, n0 := MatchesRun(code, s, b + 1, r, c', k);
      RunWiden(code, s, b + 1, m, b, e, c', q, n0);
      MoveRun(code, s, b, e, c, c', q, n0);
      var q' := JumpMoves(code, s, q);
      var d', n1 := RepeatsRunStar(code, s, b, r, greedy, q', j, times - 1);
      MoveRun(code, s, b, e, q, q', d', n1);
      RunAppend(code, s, b, e, c, q, d', n0 + 1, n1 + 1);
      d, n := d', n0 + n1 + 2;
    }
  }

  /** A round of a PLUS: the body first, then the choice to go back. */
  lemma {:induction false} RepeatsRunPlus(code: Code, s: seq<Byte>, b: nat, r: Regex, greedy: bool, c: Conf, j: nat,
                                          times: nat)
    returns (d: Conf, n: nat)
    requires Plain(r) && Layout(code, b, Plus(r, greedy))
    requires c.pc == b && times >= 1 && Repeats(r, s, c.pos, j, times)
    ensures d.pc == b + ProgramLen(Plus(r, greedy)) && d.pos == j
    ensures Run(code, s, b, b + ProgramLen(Plus(r, greedy)), c, d, n)
    decreases Plus(r, greedy), 0, times
  {
    hide *;
    UnfoldPlus(code, b, r, greedy);
    var e, m := b + ProgramLen(Plus(r, greedy)), b + ProgramLen(r);
    var k := OneRepeat(r, s, c.pos, j, times);
    var q, n0 := MatchesRun(code, s, b, r, c, k);
    RunWiden(code, s, b, m, b, e, c, q, n0);
    SplitMoves(code, s, q);
    if times == 1 {
      NoRepeats(r, s, k, j);
      d, n := q.(pc := e), n0 + 1;
      StandStill(code, s, b, e, d);
      MoveRun(code, s, b, e, q, d, d, 0);
      RunAppend(code, s, b, e, c, q, d, n0, 1);
    } else {
      var q' := q.(pc := b);
      var d', n1 := RepeatsRunPlus(code, s, b, r, greedy, q', j, times - 1);
      MoveRun(code, s, b, e, q, q', d', n1);
      RunAppend(code, s, b, e, c, q, d', n0, n1 + 1);
      d, n := d', n0 + n1 + 1;
    }
  }

  lemma NoRepeats(r: Regex, s: seq<Byte>, i: nat, j: nat)
    requires Repeats(r, s, i, j, 0)
    ensures i == j
  {
  }

  lemma OneRepeat(r: Regex, s: seq<Byte>, i: nat, j: nat, times: nat) returns (k: nat)
    requires times >= 1 && Repeats(r, s, i, j, times)
    ensures Matches(r, s, i, k) && Repeats(r, s, k, j, times - 1)
  {
    k :| Matches(r, s, i, k) && Repeats(r, s, k, j, times - 1);
  }

  /** The theorem: for every tree, with any assertions and greedy or not, a run
      from the first index of its code to the end over s[i..j] exists if and
      only if the tree matches s[i..j]. */
  lemma CompilationPreservesMeaning(code: Code, s: seq<Byte>, b: nat, re: Regex, i: nat, j: nat, vec: seq<int>)
    requires Plain(re) && Layout(code, b, re)
    ensures Matches(re, s, i, j) <==>
            exists d: Conf, n: nat :: d.pc == b + ProgramLen(re) && d.pos == j
                                      && Run(code, s, b, d.pc, Conf(b, i, vec), d, n)
  {
    hide *;
    var e := b + ProgramLen(re);
    if Matches(re, s, i, j) {
      var d, n := MatchesRun(code, s, b, re, Conf(b, i, vec), j);
      assert Run(code, s, b, d.pc, Conf(b, i, vec), d, n);
    }
    if d: Conf, n: nat :| d.pc == e && d.pos == j && Run(code, s, b, d.pc, Conf(b, i, vec), d, n) {
      RunMatches(code, s, b, re, Conf(b, i, vec), d, n);
    }
  }
}
