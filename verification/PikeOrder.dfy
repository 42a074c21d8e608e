/** The priorities of a regex, read off its tree alone, and the theorem that the
    compiled program run by Pike follows them.

    Results(re, s, i, vec) lists every way `re` can match from position `i`, the
    preferred one first: left arms before right arms, greedy operators going
    round as often as they can, non-greedy ones leaving as soon as they can. */
module PikeOrder {
  import opened Regexes
  import opened Bytecode
  import opened Compiler
  import opened Programs
  import opened ThompsonMatching
  import opened PikeMachine
  import opened PikePriority
  import opened Ranks

  datatype End = End(pos: nat, vec: seq<int>)

  ghost predicate EndsWithin(ends: seq<End>, s: seq<Byte>, i: nat) {
    forall k :: 0 <= k < |ends| ==> i <= ends[k].pos <= |s|
  }

  function Results(re: Regex, s: seq<Byte>, i: nat, vec: seq<int>): (ends: seq<End>)
    requires ProperLoops(re) && i <= |s|
    ensures EndsWithin(ends, s, i) && (!Nullable(re) ==> EndsWithin(ends, s, i + 1))
    decreases re, 0, 0, 0, 0
  {
    match re
    case Nil => [End(i, vec)]
    case Alt(l, r) => Results(l, s, i, vec) + Results(r, s, i, vec)
    case Cat(l, r) => if Nullable(l) then Then(r, s, i, Results(l, s, i, vec))
        else Then(r, s, i + 1, Results(l, s, i, vec))
    case Paren(g, r) => Close(g, s, if Nullable(r) then i else i + 1, Results(r, s, i, SetCapture(vec, 2 * g, i)))
    case Quest(r, greedy) =>
      if greedy then Results(r, s, i, vec) + [End(i, vec)] else [End(i, vec)] + Results(r, s, i, vec)
    case Star(r, greedy) => Rounds(r, greedy, s, i, vec)
    case Plus(r, greedy) => MoreRounds(r, greedy, s, i + 1, Results(r, s, i, vec))
    case Assert(a) => if Holds(a, s, i) then [End(i, vec)] else []
    case Toplevel(r, _) => Results(r, s, i, vec)
    case _ => if i < |s| && LeafInst(re).Accepts(s[i]) then [End(i + 1, vec)] else []
  }

  /** All the ways to go on with `re` from the given ends, in order. */
  function Then(re: Regex, s: seq<Byte>, i: nat, ends: seq<End>): (r: seq<End>)
    requires ProperLoops(re) && EndsWithin(ends, s, i)
    ensures EndsWithin(r, s, i) && (!Nullable(re) ==> EndsWithin(r, s, i + 1))
    decreases re, 1, 0, 0, |ends|
  {
    if ends == [] then [] else Results(re, s, ends[0].pos, ends[0].vec) + Then(re, s, i, ends[1..])
  }

  /** Records where a group ends. */
  function Close(g: nat, s: seq<Byte>, i: nat, ends: seq<End>): (r: seq<End>)
    requires EndsWithin(ends, s, i)
    ensures EndsWithin(r, s, i)
  {
    if ends == [] then []
    else [End(ends[0].pos, SetCapture(ends[0].vec, 2 * g + 1, ends[0].pos))] + Close(g, s, i, ends[1..])
  }

  /** Zero or more rounds of a loop whose body always consumes. */
  function Rounds(r: Regex, greedy: bool, s: seq<Byte>, i: nat, vec: seq<int>): (ends: seq<End>)
    requires ProperLoops(r) && !Nullable(r) && i <= |s|
    ensures EndsWithin(ends, s, i)
    decreases r, 1, |s| - i, 0, 0
  {
    var again := MoreRounds(r, greedy, s, i + 1, Results(r, s, i, vec));
    if greedy then again + [End(i, vec)] else [End(i, vec)] + again
  }

  function MoreRounds(r: Regex, greedy: bool, s: seq<Byte>, i: nat, ends: seq<End>): (rs: seq<End>)
    requires ProperLoops(r) && !Nullable(r) && EndsWithin(ends, s, i)
    ensures EndsWithin(rs, s, i)
    decreases r, 1, |s| - i, 1, |ends|
  {
    if ends == [] then [] else Rounds(r, greedy, s, ends[0].pos, ends[0].vec) + MoreRounds(r, greedy, s, i, ends[1..])
  }

  /** What the backtracker finds from `pc`, trying the given ends in order. */
  ghost function FirstVia(code: Code, rank: seq<nat>, s: seq<Byte>, pc: nat, ends: seq<End>): Option<Hit>
    requires Ranked(code, rank)
  {
    if ends == [] then None
    else OrElse(Backtrack(code, rank, s, Conf(pc, ends[0].pos, ends[0].vec)), FirstVia(code, rank, s, pc, ends[1..]))
  }

  lemma {:induction false} ViaAppend(code: Code, rank: seq<nat>, s: seq<Byte>, pc: nat, a: seq<End>, b: seq<End>)
    requires Ranked(code, rank)
    ensures FirstVia(code, rank, s, pc, a + b) == OrElse(FirstVia(code, rank, s, pc, a), FirstVia(code, rank, s, pc, b))
    decreases |a|
  {
    hide Backtrack, Ranked;
    if a == [] {
      assert a + b == b;
    } else {
      assert (a + b)[1..] == a[1..] + b;
      ViaAppend(code, rank, s, pc, a[1..], b);
    }
  }

  lemma ViaOne(code: Code, rank: seq<nat>, s: seq<Byte>, pc: nat, i: nat, vec: seq<int>)
    requires Ranked(code, rank)
    ensures FirstVia(code, rank, s, pc, [End(i, vec)]) == Backtrack(code, rank, s, Conf(pc, i, vec))
    ensures FirstVia(code, rank, s, pc, []) == None
  {
    hide Backtrack, Ranked;
    assert FirstVia(code, rank, s, pc, [End(i, vec)][1..]) == None;
  }

  lemma {:induction false} ViaJump(code: Code, rank: seq<nat>, s: seq<Byte>, m: nat, e: nat, ends: seq<End>)
    requires Ranked(code, rank) && m < |code| && code[m] == Jmp(e)
    ensures FirstVia(code, rank, s, m, ends) == FirstVia(code, rank, s, e, ends)
    decreases |ends|
  {
    if ends != [] {
      BacktrackJump(code, rank, s, m, ends[0].pos, ends[0].vec);
      ViaJump(code, rank, s, m, e, ends[1..]);
    }
  }

  lemma BacktrackJump(code: Code, rank: seq<nat>, s: seq<Byte>, pc: nat, i: nat, vec: seq<int>)
    requires Ranked(code, rank) && pc < |code|
    ensures code[pc].Jmp? ==>
            Backtrack(code, rank, s, Conf(pc, i, vec)) == Backtrack(code, rank, s, Conf(code[pc].x, i, vec))
    ensures code[pc].Save? ==>
      Backtrack(code, rank, s, Conf(pc, i, vec)) ==
          Backtrack(code, rank, s, Conf(pc + 1, i, SetCapture(vec, code[pc].group, i)))
  {
  }

  lemma {:induction false} ViaClose(code: Code, rank: seq<nat>, s: seq<Byte>, m: nat, g: nat, i: nat, ends: seq<End>)
    requires Ranked(code, rank) && m < |code| && code[m] == Save(2 * g + 1) && EndsWithin(ends, s, i)
    ensures FirstVia(code, rank, s, m, ends) == FirstVia(code, rank, s, m + 1, Close(g, s, i, ends))
    decreases |ends|
  {
    hide Backtrack, Ranked;
    if ends != [] {
      BacktrackJump(code, rank, s, m, ends[0].pos, ends[0].vec);
      ViaClose(code, rank, s, m, g, i, ends[1..]);
      ViaAppend(code, rank, s, m + 1, [End(ends[0].pos, SetCapture(ends[0].vec, 2 * g + 1, ends[0].pos))],
                Close(g, s, i, ends[1..]));
      ViaOne(code, rank, s, m + 1, ends[0].pos, SetCapture(ends[0].vec, 2 * g + 1, ends[0].pos));
    }
  }

  /** The backtracker at the code of `re` finds what it finds from the end of that
      code, tried for the ways `re` can match in their order. */
  lemma {:induction false} Fragment(code: Code, rank: seq<nat>, s: seq<Byte>, b: nat, re: Regex, i: nat, vec: seq<int>)
    requires Ranked(code, rank) && Plain(re) && ProperLoops(re) && Layout(code, b, re) && i <= |s|
    ensures Backtrack(code, rank, s, Conf(b, i, vec))
            == FirstVia(code, rank, s, b + ProgramLen(re), Results(re, s, i, vec))
    decreases re, 0, 1, 0, 0
  {
    hide Layout, Backtrack, Ranked, FirstVia, ProgramLen, Then, Close, Rounds, MoreRounds, EndsWithin, Holds, LeafInst;
    match re
    case Nil =>
      UnfoldNil(code, b);
      ViaOne(code, rank, s, b, i, vec);
    case Alt(l, r) => FragmentAlt(code, rank, s, b, l, r, i, vec);
    case Cat(l, r) => FragmentCat(code, rank, s, b, l, r, i, vec);
    case Paren(g, r) => FragmentParen(code, rank, s, b, g, r, i, vec);
    case Quest(r, greedy) => FragmentQuest(code, rank, s, b, r, greedy, i, vec);
    case Star(r, greedy) => FragmentStar(code, rank, s, b, r, greedy, i, vec);
    case Plus(r, greedy) => FragmentPlus(code, rank, s, b, r, greedy, i, vec);
    case _ =>
      UnfoldLeaf(code, b, re);
      FragmentLeaf(code, rank, s, b, re, i, vec);
  }

  lemma LoopIs(code: Code, sp: nat, body: nat, e: nat, r: Regex, greedy: bool)
    requires sp < |code| && code[sp] == (if greedy then Split(body, e) else Split(e, body)) && Layout(code, body, r)
    requires body + ProgramLen(r) == sp || (body + ProgramLen(r) < |code| && code[body + ProgramLen(r)] == Jmp(sp))
    ensures LoopAt(code, sp, body, e, r, greedy)
  {
    hide Layout, ProgramLen;
  }

  lemma {:induction false} FragmentStar(code: Code, rank: seq<nat>, s: seq<Byte>, b: nat, r: Regex, greedy: bool,
                                        i: nat, vec: seq<int>)
    requires Ranked(code, rank) && Plain(r) && ProperLoops(r) && !Nullable(r) && Layout(code, b, Star(r, greedy))
             && i <= |s|
    ensures Backtrack(code, rank, s, Conf(b, i, vec)) ==
            FirstVia(code, rank, s, b + ProgramLen(Star(r, greedy)), Rounds(r, greedy, s, i, vec))
    decreases Star(r, greedy), 0, 0, 0, 0
  {
    hide *;
    UnfoldStar(code, b, r, greedy);
    LoopIs(code, b, b + 1, b + 2 + ProgramLen(r), r, greedy);
    RoundsVia(code, rank, s, b, b + 1, b + 2 + ProgramLen(r), r, greedy, i, vec);
  }

  lemma {:induction false} FragmentPlus(code: Code, rank: seq<nat>, s: seq<Byte>, b: nat, r: Regex, greedy: bool,
                                        i: nat, vec: seq<int>)
    requires Ranked(code, rank) && Plain(r) && ProperLoops(r) && !Nullable(r) && Layout(code, b, Plus(r, greedy))
             && i <= |s|
    ensures Backtrack(code, rank, s, Conf(b, i, vec))
            == FirstVia(code, rank, s, b + ProgramLen(Plus(r, greedy)),
                        MoreRounds(r, greedy, s, i + 1, Results(r, s, i, vec)))
    decreases Plus(r, greedy), 0, 0, 0, 0
  {
    hide *;
    UnfoldPlus(code, b, r, greedy);
    var m := b + ProgramLen(r);
    LoopIs(code, m, b, m + 1, r, greedy);
    Fragment(code, rank, s, b, r, i, vec);
    MoreRoundsVia(code, rank, s, m, b, m + 1, r, greedy, i + 1, Results(r, s, i, vec));
  }

  lemma FragmentLeaf(code: Code, rank: seq<nat>, s: seq<Byte>, b: nat, re: Regex, i: nat, vec: seq<int>)
    requires Ranked(code, rank) && i <= |s| && b < |code| && code[b] == LeafInst(re)
    requires re.Lit? || re.Dot? || re.Class? || re.NClass? || re.Assert?
    ensures Backtrack(code, rank, s, Conf(b, i, vec)) == FirstVia(code, rank, s, b + 1, Results(re, s, i, vec))
  {
    hide FirstVia, Backtrack, Ranked;
    LeafStep(code, rank, s, b, i, vec);
    ViaOne(code, rank, s, b + 1, i, vec);
    ViaOne(code, rank, s, b + 1, i + 1, vec);
  }

  lemma LeafStep(code: Code, rank: seq<nat>, s: seq<Byte>, b: nat, i: nat, vec: seq<int>)
    requires Ranked(code, rank) && i <= |s| && b < |code| && (code[b].Consuming() || code[b].Look?)
    ensures Backtrack(code, rank, s, Conf(b, i, vec))
            == if code[b].Look? then if Holds(code[b].assertion, s, i)
                then Backtrack(code, rank, s, Conf(b + 1, i, vec)) else None
               else if i < |s| && code[b].Accepts(s[i]) then Backtrack(code, rank, s, Conf(b + 1, i + 1, vec)) else None
  {
    hide Holds, Ranked, Inst.Accepts;
  }

  lemma {:induction false} FragmentAlt(code: Code, rank: seq<nat>, s: seq<Byte>, b: nat, l: Regex, r: Regex, i: nat,
                                       vec: seq<int>)
    requires Ranked(code, rank) && Plain(l) && Plain(r) && ProperLoops(l) && ProperLoops(r)
    requires Layout(code, b, Alt(l, r)) && i <= |s|
    ensures Backtrack(code, rank, s, Conf(b, i, vec))
            == FirstVia(code, rank, s, b + ProgramLen(Alt(l, r)), Results(l, s, i, vec) + Results(r, s, i, vec))
    decreases Alt(l, r), 0, 0, 0, 0
  {
    hide *;
    UnfoldAlt(code, b, l, r);
    var e, m := b + ProgramLen(Alt(l, r)), b + 1 + ProgramLen(l);
    BacktrackSplit(code, rank, s, i, b, vec);
    Fragment(code, rank, s, b + 1, l, i, vec);
    ViaJump(code, rank, s, m, e, Results(l, s, i, vec));
    Fragment(code, rank, s, m + 1, r, i, vec);
    ViaAppend(code, rank, s, e, Results(l, s, i, vec), Results(r, s, i, vec));
  }

  lemma {:induction false} FragmentCat(code: Code, rank: seq<nat>, s: seq<Byte>, b: nat, l: Regex, r: Regex, i: nat,
                                       vec: seq<int>)
    requires Ranked(code, rank) && Plain(l) && Plain(r) && ProperLoops(l) && ProperLoops(r)
    requires Layout(code, b, Cat(l, r)) && i <= |s|
    ensures Backtrack(code, rank, s, Conf(b, i, vec))
            == FirstVia(code, rank, s, b + ProgramLen(Cat(l, r)),
                        Then(r, s, if Nullable(l) then i else i + 1, Results(l, s, i, vec)))
    decreases Cat(l, r), 0, 0, 0, 0
  {
    hide *;
    UnfoldCat(code, b, l, r);
    Fragment(code, rank, s, b, l, i, vec);
    ThenVia(code, rank, s, b + ProgramLen(l), r, if Nullable(l) then i else i + 1, Results(l, s, i, vec));
  }

  lemma {:induction false} ThenVia(code: Code, rank: seq<nat>, s: seq<Byte>, b: nat, re: Regex, i: nat, ends: seq<End>)
    requires Ranked(code, rank) && Plain(re) && ProperLoops(re) && Layout(code, b, re) && EndsWithin(ends, s, i)
    ensures FirstVia(code, rank, s, b, ends) == FirstVia(code, rank, s, b + ProgramLen(re), Then(re, s, i, ends))
    decreases re, 1, 0, 0, |ends|
  {
    hide Layout, Backtrack, Ranked, ProgramLen, Results, Plain, ProperLoops;
    if ends != [] {
      Fragment(code, rank, s, b, re, ends[0].pos, ends[0].vec);
      ThenVia(code, rank, s, b, re, i, ends[1..]);
      ViaAppend(code, rank, s, b + ProgramLen(re), Results(re, s, ends[0].pos, ends[0].vec), Then(re, s, i, ends[1..]));
    }
  }

  lemma {:induction false} FragmentParen(code: Code, rank: seq<nat>, s: seq<Byte>, b: nat, g: nat, r: Regex, i: nat,
                                         vec: seq<int>)
    requires Ranked(code, rank) && Plain(r) && ProperLoops(r) && Layout(code, b, Paren(g, r)) && i <= |s|
    ensures Backtrack(code, rank, s, Conf(b, i, vec))
            == FirstVia(code, rank, s, b + ProgramLen(Paren(g, r)),
                        Close(g, s, if Nullable(r) then i else i + 1, Results(r, s, i, SetCapture(vec, 2 * g, i))))
    decreases Paren(g, r), 0, 0, 0, 0
  {
    hide *;
    UnfoldParen(code, b, g, r);
    var vec' := SetCapture(vec, 2 * g, i);
    BacktrackJump(code, rank, s, b, i, vec);
    Fragment(code, rank, s, b + 1, r, i, vec');
    ViaClose(code, rank, s, b + 1 + ProgramLen(r), g, if Nullable(r) then i else i + 1, Results(r, s, i, vec'));
  }

  lemma {:induction false} FragmentQuest(code: Code, rank: seq<nat>, s: seq<Byte>, b: nat, r: Regex, greedy: bool,
                                         i: nat, vec: seq<int>)
    requires Ranked(code, rank) && Plain(r) && ProperLoops(r) && Layout(code, b, Quest(r, greedy)) && i <= |s|
    ensures Backtrack(code, rank, s, Conf(b, i, vec))
            == FirstVia(code, rank, s, b + ProgramLen(Quest(r, greedy)),
                        if greedy then Results(r, s, i, vec) + [End(i, vec)] else [End(i, vec)] + Results(r, s, i, vec))
    decreases Quest(r, greedy), 0, 0, 0, 0
  {
    hide *;
    UnfoldQuest(code, b, r, greedy);
    var e := b + ProgramLen(Quest(r, greedy));
    BacktrackSplit(code, rank, s, i, b, vec);
    Fragment(code, rank, s, b + 1, r, i, vec);
    ViaOne(code, rank, s, e, i, vec);
    if greedy {
      ViaAppend(code, rank, s, e, Results(r, s, i, vec), [End(i, vec)]);
    } else {
      ViaAppend(code, rank, s, e, [End(i, vec)], Results(r, s, i, vec));
    }
  }

  /** A loop: a SPLIT at `sp` that enters the body laid out at `body` or leaves to
      `e`; the body leads back to the SPLIT. */
  ghost predicate LoopAt(code: Code, sp: nat, body: nat, e: nat, r: Regex, greedy: bool) {
    && sp < |code| && code[sp] == (if greedy then Split(body, e) else Split(e, body))
    && Layout(code, body, r)
    && (body + ProgramLen(r) == sp || (body + ProgramLen(r) < |code| && code[body + ProgramLen(r)] == Jmp(sp)))
  }

  lemma LoopParts(code: Code, sp: nat, body: nat, e: nat, r: Regex, greedy: bool)
    requires LoopAt(code, sp, body, e, r, greedy)
    ensures sp < |code| && code[sp] == (if greedy then Split(body, e) else Split(e, body)) && Layout(code, body, r)
    ensures body + ProgramLen(r) == sp || (body + ProgramLen(r) < |code| && code[body + ProgramLen(r)] == Jmp(sp))
  {
    hide Layout;
  }

  lemma RoundsAre(r: Regex, greedy: bool, s: seq<Byte>, i: nat, vec: seq<int>)
    requires ProperLoops(r) && !Nullable(r) && i <= |s|
    ensures EndsWithin(Results(r, s, i, vec), s, i + 1)
    ensures var again := MoreRounds(r, greedy, s, i + 1, Results(r, s, i, vec));
            Rounds(r, greedy, s, i, vec) == if greedy then again + [End(i, vec)] else [End(i, vec)] + again
  {
    hide Results, MoreRounds, ProperLoops, Nullable;
  }

  lemma {:induction false} RoundsVia(code: Code, rank: seq<nat>, s: seq<Byte>, sp: nat, body: nat, e: nat, r: Regex,
                                     greedy: bool,
                                     i: nat, vec: seq<int>)
    requires Ranked(code, rank) && Plain(r) && ProperLoops(r) && !Nullable(r)
    requires LoopAt(code, sp, body, e, r, greedy) && i <= |s|
    ensures Backtrack(code, rank, s, Conf(sp, i, vec)) == FirstVia(code, rank, s, e, Rounds(r, greedy, s, i, vec))
    decreases r, 1, |s| - i, 0, 0
  {
    hide *;
    RoundsAre(r, greedy, s, i, vec);
    LoopParts(code, sp, body, e, r, greedy);
    var again := MoreRounds(r, greedy, s, i + 1, Results(r, s, i, vec));
    BacktrackSplit(code, rank, s, i, sp, vec);
    Fragment(code, rank, s, body, r, i, vec);
    if body + ProgramLen(r) != sp { ViaJump(code, rank, s, body + ProgramLen(r), sp, Results(r, s, i, vec)); }
    MoreRoundsVia(code, rank, s, sp, body, e, r, greedy, i + 1, Results(r, s, i, vec));
    ViaOne(code, rank, s, e, i, vec);
    if greedy {
      ViaAppend(code, rank, s, e, again, [End(i, vec)]);
    } else {
      ViaAppend(code, rank, s, e, [End(i, vec)], again);
    }
  }

  lemma {:induction false} MoreRoundsVia(code: Code, rank: seq<nat>, s: seq<Byte>, sp: nat, body: nat, e: nat,
                                         r: Regex, greedy: bool,
                                         i: nat, ends: seq<End>)
    requires Ranked(code, rank) && Plain(r) && ProperLoops(r) && !Nullable(r)
    requires LoopAt(code, sp, body, e, r, greedy) && EndsWithin(ends, s, i)
    ensures FirstVia(code, rank, s, sp, ends) == FirstVia(code, rank, s, e, MoreRounds(r, greedy, s, i, ends))
    decreases r, 1, |s| - i, 1, |ends|
  {
    hide Layout, Backtrack, Ranked, ProgramLen, Results, Plain, ProperLoops, Nullable, Rounds, LoopAt;
    if ends != [] {
      RoundsVia(code, rank, s, sp, body, e, r, greedy, ends[0].pos, ends[0].vec);
      MoreRoundsVia(code, rank, s, sp, body, e, r, greedy, i, ends[1..]);
      ViaAppend(code, rank, s, e, Rounds(r, greedy, s, ends[0].pos, ends[0].vec),
                MoreRounds(r, greedy, s, i, ends[1..]));
    }
  }

  /* A set of regexes. */

  ghost predicate AllProper(bs: seq<Branch>) {
    forall k :: 0 <= k < |bs| ==> ProperLoops(bs[k].tree)
  }

  /** The first way the regexes from `k` on can match from position `i`: earlier
      regexes before later ones. */
  ghost function BestAt(bs: seq<Branch>, s: seq<Byte>, i: nat, vec: seq<int>, k: nat): Option<Hit>
    requires AllProper(bs) && i <= |s| && k <= |bs|
    decreases |bs| - k
  {
    if k == |bs| then None
    else
      var ends := Results(Paren(bs[k].group, bs[k].tree), s, i, vec);
      if ends != [] then Some(Hit(k, ends[0].vec)) else BestAt(bs, s, i, vec, k + 1)
  }

  /** The leftmost of these. */
  ghost function Best(bs: seq<Branch>, s: seq<Byte>, i: nat, vec: seq<int>): Option<Hit>
    requires AllProper(bs) && i <= |s|
    decreases |s| - i
  {
    OrElse(BestAt(bs, s, i, vec, 0), if i < |s| then Best(bs, s, i + 1, vec) else None)
  }

  lemma ProperParen(g: nat, r: Regex)
    requires ProperLoops(r)
    ensures ProperLoops(Paren(g, r))
  {
  }

  lemma LeafFound(code: Code, rank: seq<nat>, s: seq<Byte>, b: nat, br: Branch, id: nat, i: nat, vec: seq<int>)
    requires Ranked(code, rank) && br.WellFormed() && ProperLoops(br.tree) && Layout(code, b, Leaf(br, id)) && i <= |s|
    ensures var ends := Results(Paren(br.group, br.tree), s, i, vec);
            Backtrack(code, rank, s, Conf(b, i, vec)) == if ends != [] then Some(Hit(id, ends[0].vec)) else None
  {
    hide Layout, Ranked, Backtrack, ProgramLen, Results, Plain, ProperLoops;
    var re := Paren(br.group, br.tree);
    PlainParen(br.group, br.tree);
    ProperParen(br.group, br.tree);
    UnfoldToplevel(code, b, re, id);
    Fragment(code, rank, s, b, re, i, vec);
    var ends := Results(re, s, i, vec);
    if ends != [] { BacktrackMatch(code, rank, s, ends[0].pos, b + ProgramLen(re), ends[0].vec); }
  }

  /** BestAt over a longer set: the last regex comes last. */
  lemma {:induction false} BestAtFront(bs: seq<Branch>, s: seq<Byte>, i: nat, vec: seq<int>, k: nat)
    requires |bs| > 0 && AllProper(bs) && i <= |s| && k <= |bs| - 1
    ensures AllProper(bs[..|bs| - 1])
    ensures BestAt(bs, s, i, vec, k) == OrElse(BestAt(bs[..|bs| - 1], s, i, vec, k), BestAt(bs, s, i, vec, |bs| - 1))
    decreases |bs| - k
  {
    hide Results, ProperLoops;
    if k < |bs| - 1 { BestAtFront(bs, s, i, vec, k + 1); }
  }

  lemma {:induction false} ChainFound(code: Code, rank: seq<nat>, s: seq<Byte>, b: nat, bs: seq<Branch>, i: nat,
                                      vec: seq<int>)
    requires Ranked(code, rank) && |bs| > 0 && AllWellFormed(bs) && AllProper(bs) && Layout(code, b, Chain(bs))
             && i <= |s|
    ensures Backtrack(code, rank, s, Conf(b, i, vec)) == BestAt(bs, s, i, vec, 0)
    decreases |bs|
  {
    hide Layout, Ranked, Backtrack, ProgramLen, Results, Plain, ProperLoops, Leaf;
    var last := |bs| - 1;
    if last == 0 {
      LeafFound(code, rank, s, b, bs[0], 0, i, vec);
      assert BestAt(bs, s, i, vec, 1) == None;
    } else {
      var l, r := Chain(bs[..last]), Leaf(bs[last], last);
      UnfoldAlt(code, b, l, r);
      BacktrackSplit(code, rank, s, i, b, vec);
      ChainFound(code, rank, s, b + 1, bs[..last], i, vec);
      LeafFound(code, rank, s, b + 2 + ProgramLen(l), bs[last], last, i, vec);
      BestAtFront(bs, s, i, vec, 0);
      assert BestAt(bs, s, i, vec, last + 1) == None;
    }
  }

  lemma BacktrackSearching(code: Code, rank: seq<nat>, s: seq<Byte>, i: nat, vec: seq<int>)
    requires Ranked(code, rank) && Searching(code) && i <= |s|
    ensures Backtrack(code, rank, s, Conf(0, i, vec))
            == OrElse(Backtrack(code, rank, s, Conf(3, i, vec)),
                      if i < |s| then Backtrack(code, rank, s, Conf(0, i + 1, vec)) else None)
  {
    BacktrackSplit(code, rank, s, i, 0, vec);
    if i < |s| { BacktrackJump(code, rank, s, 2, i + 1, vec); }
    assert Backtrack(code, rank, s, Conf(1, i, vec)) == if i < |s| then Backtrack(code, rank, s, Conf(2, i + 1, vec))
        else None;
  }

  lemma {:induction false} SearchFound(code: Code, rank: seq<nat>, s: seq<Byte>, bs: seq<Branch>, i: nat, vec: seq<int>)
    requires Ranked(code, rank) && Searching(code) && |bs| > 0 && AllWellFormed(bs) && AllProper(bs)
    requires Layout(code, 3, Chain(bs)) && i <= |s|
    ensures Backtrack(code, rank, s, Conf(0, i, vec)) == Best(bs, s, i, vec)
    decreases |s| - i
  {
    hide Layout, Ranked, Backtrack, Chain, AllWellFormed, AllProper, BestAt, Searching;
    BacktrackSearching(code, rank, s, i, vec);
    ChainFound(code, rank, s, 3, bs, i, vec);
    if i < |s| { SearchFound(code, rank, s, bs, i + 1, vec); }
  }

  lemma {:induction false} ChainProper(bs: seq<Branch>)
    requires |bs| > 0 && AllProper(bs)
    ensures ProperLoops(Chain(bs))
    decreases |bs|
  {
    if |bs| > 1 { ChainProper(bs[..|bs| - 1]); }
  }

  /** The theorem: for every set of look-ahead-free regexes without empty loops,
      and every stream, Pike's id and captures are those of the leftmost match,
      of the first regex that has one there, taken in its order of preference. */
  lemma PikeFollowsPriorities(code: Code, bs: seq<Branch>, s: seq<Byte>, n: nat)
    requires ProgramOf(code, bs) && BranchesLookAheadFree(bs) && AllProper(bs)
    ensures Answer(code, s, n) == Best(bs, s, 0, Blank(n))
  {
    ChainProper(bs);
    assert ProperLoops(Wrap(bs));
    hide Layout, ProgramLen, Chain, Wrap, Answer, Best, Backtrack, ProperLoops;
    var rank := ProgramRanked(code, bs);
    ProgramRuns(code, bs);
    ProgramSearches(code, bs);
    AnswerBacktracks(code, rank, s, n);
    SearchFound(code, rank, s, bs, 0, Blank(n));
  }
}
