/** Code without empty loops can be ranked: every move that does not consume
    goes to an instruction of smaller rank, so no cycle is walked for free. */
module Ranks {
  import opened Regexes
  import opened Bytecode
  import opened Compiler
  import opened Programs
  import opened PikePriority

  function Max(a: nat, b: nat): nat {
    if a > b then a else b
  }

  /** The rank of instruction `i` of the code of `re`, or of what follows it when
      `i` is its length; what follows has rank `k`. */
  function RankAt(re: Regex, k: nat, i: nat): nat
    requires i <= ProgramLen(re)
  {
    match re
    case Nil => k
    case Alt(l, r) =>
      if i == 0 then 1 + Max(RankAt(l, k + 1, 0), RankAt(r, k, 0))
      else if i <= 1 + ProgramLen(l) then RankAt(l, k + 1, i - 1)
      else RankAt(r, k, i - 2 - ProgramLen(l))
    case Cat(l, r) => if i < ProgramLen(l) then RankAt(l, RankAt(r, k, 0), i) else RankAt(r, k, i - ProgramLen(l))
    case Paren(_, r) =>
      if i == 0 then 1 + RankAt(r, k + 1, 0) else if i <= 1 + ProgramLen(r) then RankAt(r, k + 1, i - 1) else k
    case Quest(r, _) => if i == 0 then 1 + Max(RankAt(r, k, 0), k) else RankAt(r, k, i - 1)
    case Star(r, _) =>
      if i == 0 then LoopRank(r, k) else if i <= 1 + ProgramLen(r) then RankAt(r, LoopRank(r, k) + 1, i - 1) else k
    case Plus(r, _) => if i <= ProgramLen(r) then RankAt(r, LoopRank(r, k), i) else k
    case Toplevel(r, _) => if i <= ProgramLen(r) then RankAt(r, 0, i) else k
    case Assert(_) => if i == 0 then k + 1 else k
    case _ => if i == 0 then 0 else k
  }

  /** The rank of the SPLIT of a loop around `r`. */
  function LoopRank(r: Regex, k: nat): nat {
    1 + Max(RankAt(r, 0, 0), k)
  }

  lemma {:induction false} RankAtEnd(re: Regex, k: nat)
    ensures RankAt(re, k, ProgramLen(re)) == k
    decreases re
  {
    match re
    case Alt(_, r) => RankAtEnd(r, k);
    case Cat(_, r) => RankAtEnd(r, k);
    case Quest(r, _) => RankAtEnd(r, k);
    case _ =>
  }

  /** The first instruction of a tree that always consumes does not need to know
      what follows. */
  lemma {:induction false} EntryFixed(re: Regex, k: nat, k': nat)
    requires !Nullable(re)
    ensures ProgramLen(re) > 0 && RankAt(re, k, 0) == RankAt(re, k', 0)
    decreases re
  {
    match re
    case Alt(l, r) =>
      EntryFixed(l, k + 1, k' + 1);
      EntryFixed(r, k, k');
    case Cat(l, r) =>
      if Nullable(l) { EntryFixed(r, k, k'); } else { EntryFixed(l, RankAt(r, k, 0), RankAt(r, k', 0)); }
    case Paren(_, r) => EntryFixed(r, k + 1, k' + 1);
    case Plus(r, _) => EntryFixed(r, LoopRank(r, k), LoopRank(r, k'));
    case Toplevel(r, _) => EntryFixed(r, 0, 0);
    case _ =>
  }

  /* The ranks of a node in terms of those of its parts. */

  lemma AltRanks(l: Regex, r: Regex, k: nat, i: nat)
    requires i <= ProgramLen(Alt(l, r))
    ensures var re, m := Alt(l, r), 1 + ProgramLen(l);
            && ProgramLen(re) == m + 1 + ProgramLen(r)
            && RankAt(re, k, m) == k + 1
            && (i == 0 ==> RankAt(re, k, i) > RankAt(l, k + 1, 0) && RankAt(re, k, i) > RankAt(r, k, 0))
            && (0 < i <= m ==> RankAt(re, k, i) == RankAt(l, k + 1, i - 1))
            && (m < i ==> RankAt(re, k, i) == RankAt(r, k, i - m - 1))
            && RankAt(re, k, ProgramLen(re)) == k
  {
    RankAtEnd(l, k + 1);
    RankAtEnd(r, k);
  }

  lemma CatRanks(l: Regex, r: Regex, k: nat, i: nat)
    requires i <= ProgramLen(Cat(l, r))
    ensures var re, m := Cat(l, r), ProgramLen(l);
            && ProgramLen(re) == m + ProgramLen(r)
            && (i <= m ==> RankAt(re, k, i) == RankAt(l, RankAt(r, k, 0), i))
            && (m <= i ==> RankAt(re, k, i) == RankAt(r, k, i - m))
  {
    RankAtEnd(l, RankAt(r, k, 0));
  }

  lemma ParenRanks(g: nat, r: Regex, k: nat, i: nat)
    requires i <= ProgramLen(Paren(g, r))
    ensures var re, m := Paren(g, r), 1 + ProgramLen(r);
            && ProgramLen(re) == m + 1
            && RankAt(re, k, m) == k + 1 && RankAt(re, k, m + 1) == k
            && (i == 0 ==> RankAt(re, k, i) > RankAt(r, k + 1, 0))
            && (0 < i <= m ==> RankAt(re, k, i) == RankAt(r, k + 1, i - 1))
  {
    RankAtEnd(r, k + 1);
  }

  lemma QuestRanks(r: Regex, greedy: bool, k: nat, i: nat)
    requires i <= ProgramLen(Quest(r, greedy))
    ensures var re := Quest(r, greedy);
            && ProgramLen(re) == 1 + ProgramLen(r)
            && (i == 0 ==> RankAt(re, k, i) > RankAt(r, k, 0) && RankAt(re, k, i) > k)
            && (0 < i ==> RankAt(re, k, i) == RankAt(r, k, i - 1))
            && RankAt(re, k, ProgramLen(re)) == k
  {
    RankAtEnd(r, k);
  }

  lemma StarRanks(r: Regex, greedy: bool, k: nat, i: nat)
    requires i <= ProgramLen(Star(r, greedy)) && !Nullable(r)
    ensures var re, m := Star(r, greedy), 1 + ProgramLen(r);
            && ProgramLen(re) == m + 1
            && RankAt(re, k, m) == LoopRank(r, k) + 1 && RankAt(re, k, m + 1) == k
            && RankAt(re, k, 0) == LoopRank(r, k) > k && LoopRank(r, k) > RankAt(r, LoopRank(r, k) + 1, 0)
            && (0 < i <= m ==> RankAt(re, k, i) == RankAt(r, LoopRank(r, k) + 1, i - 1))
  {
    RankAtEnd(r, LoopRank(r, k) + 1);
    EntryFixed(r, LoopRank(r, k) + 1, 0);
  }

  lemma PlusRanks(r: Regex, greedy: bool, k: nat, i: nat)
    requires i <= ProgramLen(Plus(r, greedy)) && !Nullable(r)
    ensures var re, m := Plus(r, greedy), ProgramLen(r);
            && ProgramLen(re) == m + 1
            && RankAt(re, k, m) == LoopRank(r, k) > k && RankAt(re, k, m + 1) == k
            && LoopRank(r, k) > RankAt(r, LoopRank(r, k), 0)
            && (i <= m ==> RankAt(re, k, i) == RankAt(r, LoopRank(r, k), i))
  {
    RankAtEnd(r, LoopRank(r, k));
    EntryFixed(r, LoopRank(r, k), 0);
  }

  /** Every non-consuming move inside the code of `re`, or out of it, goes down. */
  lemma {:induction false} RanksDrop(code: Code, b: nat, re: Regex, k: nat, i: nat, t: nat)
    requires Layout(code, b, re) && ProperLoops(re) && i < ProgramLen(re)
    requires !code[b + i].Consuming() && Target(code[b + i], b + i, b + t) && t <= ProgramLen(re)
    ensures RankAt(re, k, t) < RankAt(re, k, i)
    decreases re, 2
  {
    hide Layout;
    match re
    case Alt(l, r) => RanksDropAlt(code, b, l, r, k, i, t);
    case Cat(l, r) => RanksDropCat(code, b, l, r, k, i, t);
    case Paren(g, r) => RanksDropParen(code, b, g, r, k, i, t);
    case Quest(r, greedy) => RanksDropQuest(code, b, r, greedy, k, i, t);
    case Star(r, greedy) => RanksDropStar(code, b, r, greedy, k, i, t);
    case Plus(r, greedy) => RanksDropPlus(code, b, r, greedy, k, i, t);
    case Toplevel(r, id) =>
      UnfoldToplevel(code, b, r, id);
      if i < ProgramLen(r) { RanksDropPart(code, b, re, b, r, 0, i, t); }
    case _ => LeafOnly(code, b, re);
  }

  lemma LeafOnly(code: Code, b: nat, re: Regex)
    requires Layout(code, b, re) && (re.Lit? || re.Dot? || re.Class? || re.NClass? || re.Assert? || re.Nil?)
    ensures ProgramLen(re) <= 1 && (ProgramLen(re) == 1 ==> b < |code| && code[b] == LeafInst(re))
  {
  }

  /** A part of the code: `r` laid out at `c` inside the code of `re` at `b`. */
  lemma {:induction false} RanksDropPart(code: Code, b: nat, re: Regex, c: nat, r: Regex, k: nat, i: nat, t: nat)
    requires r < re && b <= c && Layout(code, c, r) && ProperLoops(r)
    requires c - b <= i < c - b + ProgramLen(r) && b + i < |code|
    requires !code[b + i].Consuming() && Target(code[b + i], b + i, b + t)
    ensures c - b <= t <= c - b + ProgramLen(r)
    ensures RankAt(r, k, t - (c - b)) < RankAt(r, k, i - (c - b))
    decreases re, 0
  {
    hide Layout, ProgramLen, ProperLoops, RankAt;
    LayoutWithin(code, c, r, c, c + ProgramLen(r));
    assert StaysIn(code[b + i], b + i, c, c + ProgramLen(r));
    RanksDrop(code, c, r, k, i - (c - b), t - (c - b));
  }

  lemma {:induction false} RanksDropAlt(code: Code, b: nat, l: Regex, r: Regex, k: nat, i: nat, t: nat)
    requires Layout(code, b, Alt(l, r)) && ProperLoops(l) && ProperLoops(r) && i < ProgramLen(Alt(l, r))
    requires !code[b + i].Consuming() && Target(code[b + i], b + i, b + t) && t <= ProgramLen(Alt(l, r))
    ensures RankAt(Alt(l, r), k, t) < RankAt(Alt(l, r), k, i)
    decreases Alt(l, r), 1
  {
    hide Layout, ProperLoops, Nullable, RankAt, ProgramLen;
    UnfoldAlt(code, b, l, r);
    AltRanks(l, r, k, i);
    AltRanks(l, r, k, t);
    var m := 1 + ProgramLen(l);
    if 0 < i < m { RanksDropPart(code, b, Alt(l, r), b + 1, l, k + 1, i, t); }
    if m < i { RanksDropPart(code, b, Alt(l, r), b + m + 1, r, k, i, t); }
  }

  lemma {:induction false} RanksDropCat(code: Code, b: nat, l: Regex, r: Regex, k: nat, i: nat, t: nat)
    requires Layout(code, b, Cat(l, r)) && ProperLoops(l) && ProperLoops(r) && i < ProgramLen(Cat(l, r))
    requires !code[b + i].Consuming() && Target(code[b + i], b + i, b + t) && t <= ProgramLen(Cat(l, r))
    ensures RankAt(Cat(l, r), k, t) < RankAt(Cat(l, r), k, i)
    decreases Cat(l, r), 1
  {
    hide Layout, ProperLoops, Nullable, RankAt, ProgramLen;
    UnfoldCat(code, b, l, r);
    CatRanks(l, r, k, i);
    CatRanks(l, r, k, t);
    if i < ProgramLen(l) {
      RanksDropPart(code, b, Cat(l, r), b, l, RankAt(r, k, 0), i, t);
    } else {
      RanksDropPart(code, b, Cat(l, r), b + ProgramLen(l), r, k, i, t);
    }
  }

  lemma {:induction false} RanksDropParen(code: Code, b: nat, g: nat, r: Regex, k: nat, i: nat, t: nat)
    requires Layout(code, b, Paren(g, r)) && ProperLoops(r) && i < ProgramLen(Paren(g, r))
    requires !code[b + i].Consuming() && Target(code[b + i], b + i, b + t) && t <= ProgramLen(Paren(g, r))
    ensures RankAt(Paren(g, r), k, t) < RankAt(Paren(g, r), k, i)
    decreases Paren(g, r), 1
  {
    hide Layout, ProperLoops, Nullable, RankAt, ProgramLen;
    UnfoldParen(code, b, g, r);
    ParenRanks(g, r, k, i);
    ParenRanks(g, r, k, t);
    if 0 < i < 1 + ProgramLen(r) { RanksDropPart(code, b, Paren(g, r), b + 1, r, k + 1, i, t); }
  }

  lemma {:induction false} RanksDropQuest(code: Code, b: nat, r: Regex, greedy: bool, k: nat, i: nat, t: nat)
    requires Layout(code, b, Quest(r, greedy)) && ProperLoops(r) && i < ProgramLen(Quest(r, greedy))
    requires !code[b + i].Consuming() && Target(code[b + i], b + i, b + t) && t <= ProgramLen(Quest(r, greedy))
    ensures RankAt(Quest(r, greedy), k, t) < RankAt(Quest(r, greedy), k, i)
    decreases Quest(r, greedy), 1
  {
    hide Layout, ProperLoops, Nullable, RankAt, ProgramLen;
    UnfoldQuest(code, b, r, greedy);
    QuestRanks(r, greedy, k, i);
    QuestRanks(r, greedy, k, t);
    if 0 < i { RanksDropPart(code, b, Quest(r, greedy), b + 1, r, k, i, t); }
  }

  lemma {:induction false} RanksDropStar(code: Code, b: nat, r: Regex, greedy: bool, k: nat, i: nat, t: nat)
    requires Layout(code, b, Star(r, greedy)) && ProperLoops(r) && !Nullable(r) && i < ProgramLen(Star(r, greedy))
    requires !code[b + i].Consuming() && Target(code[b + i], b + i, b + t) && t <= ProgramLen(Star(r, greedy))
    ensures RankAt(Star(r, greedy), k, t) < RankAt(Star(r, greedy), k, i)
    decreases Star(r, greedy), 1
  {
    hide Layout, ProperLoops, Nullable, RankAt, ProgramLen;
    UnfoldStar(code, b, r, greedy);
    StarRanks(r, greedy, k, i);
    StarRanks(r, greedy, k, t);
    if 0 < i < 1 + ProgramLen(r) { RanksDropPart(code, b, Star(r, greedy), b + 1, r, LoopRank(r, k) + 1, i, t); }
  }

  lemma {:induction false} RanksDropPlus(code: Code, b: nat, r: Regex, greedy: bool, k: nat, i: nat, t: nat)
    requires Layout(code, b, Plus(r, greedy)) && ProperLoops(r) && !Nullable(r) && i < ProgramLen(Plus(r, greedy))
    requires !code[b + i].Consuming() && Target(code[b + i], b + i, b + t) && t <= ProgramLen(Plus(r, greedy))
    ensures RankAt(Plus(r, greedy), k, t) < RankAt(Plus(r, greedy), k, i)
    decreases Plus(r, greedy), 1
  {
    hide Layout, ProperLoops, Nullable, RankAt, ProgramLen;
    UnfoldPlus(code, b, r, greedy);
    PlusRanks(r, greedy, k, i);
    PlusRanks(r, greedy, k, t);
    if i < ProgramLen(r) { RanksDropPart(code, b, Plus(r, greedy), b, r, LoopRank(r, k), i, t); }
  }

  /** Programs without empty loops can be ranked. */
  lemma ProgramRanked(code: Code, bs: seq<Branch>) returns (rank: seq<nat>)
    requires ProgramOf(code, bs) && ProperLoops(Wrap(bs))
    ensures Ranked(code, rank)
  {
    var re := Wrap(bs);
    hide Layout, ProgramLen, RankAt, ProperLoops, Wrap;
    rank := seq(|code|, i requires 0 <= i < |code| => RankAt(re, 0, i));
    forall pc: nat, t: nat | pc < |code| && !code[pc].Consuming() && Target(code[pc], pc, t) && t < |code|
      ensures rank[t] < rank[pc]
    {
      RanksDrop(code, 0, re, 0, pc, t);
    }
  }
}
