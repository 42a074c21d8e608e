/** The JIT on compiled programs: building the path graph never fails, and the answer
    is the one the regexes ask for. */
module JitPrograms {
  import opened Regexes
  import opened Bytecode
  import opened Compiler
  import opened Programs
  import opened Thompson
  import opened ThompsonMatching
  import opened JitGraph
  import opened JitMachine

  /** From `pc` something that waits can be reached, or the end of the fragment. */
  ghost predicate Leaves(code: Code, pc: nat, e: nat) {
    Reach(code, pc, e) || exists v: nat :: v < |code| && Listed(code[v]) && Reach(code, pc, v)
  }

  lemma LeavesFrom(code: Code, pc: nat, m: nat, e: nat)
    requires Leaves(code, pc, m) && Leaves(code, m, e)
    ensures Leaves(code, pc, e)
  {
    if Reach(code, pc, m) {
      if Reach(code, m, e) {
        ReachTwice(code, pc, m, e);
      } else {
        var v: nat :| v < |code| && Listed(code[v]) && Reach(code, m, v);
        ReachTwice(code, pc, m, v);
      }
    }
  }

  lemma ReachTwice(code: Code, u: nat, v: nat, w: nat)
    requires Reach(code, u, v) && Reach(code, v, w)
    ensures Reach(code, u, w)
  {
    var m: nat :| Run(code, [], 0, |code|, Conf(u, 0, []), Conf(v, 0, []), m);
    var n: nat :| Run(code, [], 0, |code|, Conf(v, 0, []), Conf(w, 0, []), n);
    RunAppend(code, [], 0, |code|, Conf(u, 0, []), Conf(v, 0, []), Conf(w, 0, []), m, n);
  }

  lemma LeavesStep(code: Code, pc: nat, w: nat, e: nat)
    requires Eps(code, [], 0, pc, w) && Leaves(code, w, e)
    ensures Leaves(code, pc, e)
  {
    hide Eps, Reach;
    ReachSelf(code, pc);
    ReachStep(code, pc, pc, w);
    LeavesFrom(code, pc, w, e);
  }

  lemma LeavesHere(code: Code, e: nat)
    ensures Leaves(code, e, e)
  {
    hide Reach;
    ReachSelf(code, e);
  }

  lemma Waiting(code: Code, pc: nat, e: nat)
    requires pc < |code| && Listed(code[pc])
    ensures Leaves(code, pc, e)
  {
    hide Reach;
    ReachSelf(code, pc);
  }

  /** One arm of a SPLIT, or the target of a JMP or SAVE, is enough. */
  lemma Jumps(code: Code, pc: nat, w: nat, e: nat)
    requires pc < |code| && Leaves(code, w, e)
    requires code[pc] == Jmp(w) || (code[pc].Split? && (code[pc].x == w || code[pc].y == w))
             || (code[pc].Save? && w == pc + 1)
    ensures Leaves(code, pc, e)
  {
    hide Leaves;
    EpsTargets(code, [], 0, pc);
    LeavesStep(code, pc, w, e);
  }

  /** The whole fragment, from its start: it may be empty. */
  lemma {:induction false} LeavesFragment(code: Code, b: nat, re: Regex, pc: nat)
    requires Layout(code, b, re) && AssertionFree(code) && b <= pc <= b + ProgramLen(re)
    ensures Leaves(code, pc, b + ProgramLen(re))
    decreases re, 1
  {
    hide Layout, ProgramLen, Leaves, AssertionFree;
    if pc == b + ProgramLen(re) {
      LeavesHere(code, pc);
    } else {
      match re
      case Nil => UnfoldNil(code, b);
      case Alt(l, r) => LeavesAlt(code, b, l, r, pc);
      case Cat(l, r) => LeavesCat(code, b, l, r, pc);
      case Paren(g, r) => LeavesParen(code, b, g, r, pc);
      case Quest(r, greedy) => LeavesQuest(code, b, r, greedy, pc);
      case Star(r, greedy) => LeavesStar(code, b, r, greedy, pc);
      case Plus(r, greedy) => LeavesPlus(code, b, r, greedy, pc);
      case Toplevel(r, id) => LeavesToplevel(code, b, r, id, pc);
      case _ => LeavesLeaf(code, b, re);
    }
  }

  lemma LeavesLeaf(code: Code, b: nat, re: Regex)
    requires Layout(code, b, re) && AssertionFree(code) && IsLeaf(re)
    ensures ProgramLen(re) == 1 && Leaves(code, b, b + 1)
  {
    hide Layout, ProgramLen, Leaves;
    UnfoldLeaf(code, b, re);
    Waiting(code, b, b + 1);
  }

  lemma {:induction false} LeavesAlt(code: Code, b: nat, l: Regex, r: Regex, pc: nat)
    requires Layout(code, b, Alt(l, r)) && AssertionFree(code) && b <= pc < b + ProgramLen(Alt(l, r))
    ensures Leaves(code, pc, b + ProgramLen(Alt(l, r)))
    decreases Alt(l, r), 0
  {
    hide *;
    UnfoldAlt(code, b, l, r);
    var e, m := b + ProgramLen(Alt(l, r)), b + 1 + ProgramLen(l);
    LeavesHere(code, e);
    Jumps(code, m, e, e);
    if m < pc {
      LeavesFragment(code, m + 1, r, pc);
    } else if b < pc {
      LeavesFragment(code, b + 1, l, pc);
      LeavesFrom(code, pc, m, e);
    } else {
      LeavesFragment(code, m + 1, r, m + 1);
      Jumps(code, b, m + 1, e);
    }
  }

  lemma {:induction false} LeavesCat(code: Code, b: nat, l: Regex, r: Regex, pc: nat)
    requires Layout(code, b, Cat(l, r)) && AssertionFree(code) && b <= pc < b + ProgramLen(Cat(l, r))
    ensures Leaves(code, pc, b + ProgramLen(Cat(l, r)))
    decreases Cat(l, r), 0
  {
    hide *;
    UnfoldCat(code, b, l, r);
    var e, m := b + ProgramLen(Cat(l, r)), b + ProgramLen(l);
    if m <= pc {
      LeavesFragment(code, m, r, pc);
    } else {
      LeavesFragment(code, b, l, pc);
      LeavesFragment(code, m, r, m);
      LeavesFrom(code, pc, m, e);
    }
  }

  lemma {:induction false} LeavesParen(code: Code, b: nat, g: nat, r: Regex, pc: nat)
    requires Layout(code, b, Paren(g, r)) && AssertionFree(code) && b <= pc < b + ProgramLen(Paren(g, r))
    ensures Leaves(code, pc, b + ProgramLen(Paren(g, r)))
    decreases Paren(g, r), 0
  {
    hide *;
    UnfoldParen(code, b, g, r);
    var e, m := b + ProgramLen(Paren(g, r)), b + 1 + ProgramLen(r);
    LeavesHere(code, e);
    Jumps(code, m, e, e);
    var inside := if b < pc then pc else b + 1;
    LeavesFragment(code, b + 1, r, inside);
    LeavesFrom(code, inside, m, e);
    if pc == b { Jumps(code, b, b + 1, e); }
  }

  lemma {:induction false} LeavesQuest(code: Code, b: nat, r: Regex, greedy: bool, pc: nat)
    requires Layout(code, b, Quest(r, greedy)) && AssertionFree(code) && b <= pc < b + ProgramLen(Quest(r, greedy))
    ensures Leaves(code, pc, b + ProgramLen(Quest(r, greedy)))
    decreases Quest(r, greedy), 0
  {
    hide *;
    UnfoldQuest(code, b, r, greedy);
    var e := b + ProgramLen(Quest(r, greedy));
    LeavesHere(code, e);
    if pc == b { Jumps(code, b, e, e); } else { LeavesFragment(code, b + 1, r, pc); }
  }

  lemma {:induction false} LeavesStar(code: Code, b: nat, r: Regex, greedy: bool, pc: nat)
    requires Layout(code, b, Star(r, greedy)) && AssertionFree(code) && b <= pc < b + ProgramLen(Star(r, greedy))
    ensures Leaves(code, pc, b + ProgramLen(Star(r, greedy)))
    decreases Star(r, greedy), 0
  {
    hide *;
    UnfoldStar(code, b, r, greedy);
    var e, m := b + ProgramLen(Star(r, greedy)), b + 1 + ProgramLen(r);
    LeavesHere(code, e);
    Jumps(code, b, e, e);
    Jumps(code, m, b, e);
    if pc != b {
      LeavesFragment(code, b + 1, r, pc);
      LeavesFrom(code, pc, m, e);
    }
  }

  lemma {:induction false} LeavesPlus(code: Code, b: nat, r: Regex, greedy: bool, pc: nat)
    requires Layout(code, b, Plus(r, greedy)) && AssertionFree(code) && b <= pc < b + ProgramLen(Plus(r, greedy))
    ensures Leaves(code, pc, b + ProgramLen(Plus(r, greedy)))
    decreases Plus(r, greedy), 0
  {
    hide *;
    UnfoldPlus(code, b, r, greedy);
    var e, m := b + ProgramLen(Plus(r, greedy)), b + ProgramLen(r);
    LeavesHere(code, e);
    Jumps(code, m, e, e);
    LeavesFragment(code, b, r, pc);
    LeavesFrom(code, pc, m, e);
  }

  lemma {:induction false} LeavesToplevel(code: Code, b: nat, r: Regex, id: nat, pc: nat)
    requires Layout(code, b, Toplevel(r, id)) && AssertionFree(code) && b <= pc < b + ProgramLen(Toplevel(r, id))
    ensures Leaves(code, pc, b + ProgramLen(Toplevel(r, id)))
    decreases Toplevel(r, id), 0
  {
    hide *;
    UnfoldToplevel(code, b, r, id);
    var e, m := b + ProgramLen(Toplevel(r, id)), b + ProgramLen(r);
    MatchWaits(code, m);
    Waiting(code, m, e);
    LeavesFragment(code, b, r, pc);
    LeavesFrom(code, pc, m, e);
  }

  lemma MatchWaits(code: Code, m: nat)
    requires m < |code| && code[m].Match?
    ensures Listed(code[m])
  {
  }

  /** Every live instruction of a program leads to one that waits. */
  lemma NeverStuck(code: Code, bs: seq<Branch>)
    requires ProgramOf(code, bs) && AssertionFree(code)
    ensures !SomeStuck(code) && WellTargeted(code) && |code| > 0 && code[0].Split?
  {
    hide Layout, ProgramLen, Reach, Live, AssertionFree, WellTargeted;
    ProgramTargets(code, bs);
    ProgramSearches(code, bs);
    if from: nat :| Rooted(code, from) && Stuck(code, Entry(from)) {
      var pc := Entry(from);
      LiveInside(code, pc);
      LeavesFragment(code, 0, Wrap(bs), pc);
      EndIsNotLive(code);
      if Reach(code, pc, |code|) { ReachLive(code, pc, |code|); }
    }
  }

  lemma EndIsNotLive(code: Code)
    ensures !Live(code, |code|)
  {
  }

  /** The JIT on a compiled set of regexes without assertions, on a whole stream: it is
      built, and it answers as the interpreter does, which is right. */
  method SearchBoth(code: Code, ghost bs: seq<Branch>, s: seq<Byte>) returns (jit: Status, interpreted: Status)
    requires ProgramOf(code, bs) && AssertionFree(code)
    ensures jit == interpreted == if MatchExists(bs, s) then OK else DECLINED
  {
    hide ProgramOf, AssertionFree, SomeStuck, AcceptsBefore, MatchExists, WellTargeted;
    NeverStuck(code, bs);
    AcceptsIfMatches(code, bs, s);
    var program := new Program(code);
    var ok;
    ok, jit, interpreted := BothAnswer(program, s);
  }
}
