/** Two regexes with tangled assertions on "a": on (?:a?|\b)*c the search never ends,
    on (?:\b?a?)+c, where the assertion comes first, it does. */
module AheadExamples {
  import opened Regexes
  import opened Bytecode
  import opened Compiler
  import opened Programs
  import opened Thompson
  import opened ThompsonMatching
  import opened AheadMachine
  import opened AheadEnds
  import opened AheadLoops

  /** "a". */
  const TEXT: seq<Byte> := [97]

  /** (?:a?|\b)* */
  function LoopStar(): Regex {
    Star(Alt(Quest(Lit(97), true), Assert(SmallB)), true)
  }

  function LoopBranches(): seq<Branch> {
    [Branch(0, 0, Cat(LoopStar(), Lit(99)))]
  }

  function Loop(): Code {
    [Split(3, 1), Any, Jmp(0), Save(0),
     Split(5, 11), Split(6, 9), Split(7, 8), Char(97), Jmp(10), Look(SmallB), Jmp(4), Char(99), Save(1), Match(0)]
  }

  /** (?:\b?a?)+ */
  function GapPlus(): Regex {
    Plus(Cat(Quest(Assert(SmallB), true), Quest(Lit(97), true)), true)
  }

  function GapBranches(): seq<Branch> {
    [Branch(0, 0, Cat(GapPlus(), Lit(99)))]
  }

  function Gap(): Code {
    [Split(3, 1), Any, Jmp(0), Save(0),
     Split(5, 6), Look(SmallB), Split(7, 8), Char(97), Split(4, 9), Char(99), Save(1), Match(0)]
  }

  lemma LoopStarLaidOut()
    ensures Layout(Loop(), 4, LoopStar()) && ProgramLen(LoopStar()) == 7
  {
    LoopBodyLaidOut();
    hide LayoutAlt, LayoutQuest;
    assert ProgramLen(Quest(Lit(97), true)) == 2;
  }

  lemma LoopBodyLaidOut()
    ensures var r := Alt(Quest(Lit(97), true), Assert(SmallB)); Layout(Loop(), 5, r) && ProgramLen(r) == 5
  {
    assert Layout(Loop(), 6, Quest(Lit(97), true));
  }

  lemma GapPlusLaidOut()
    ensures Layout(Gap(), 4, GapPlus()) && ProgramLen(GapPlus()) == 5
  {
    assert Layout(Gap(), 4, Quest(Assert(SmallB), true));
    assert Layout(Gap(), 6, Quest(Lit(97), true));
  }

  lemma LoopsFirst()
    ensures Layout(Loop(), 0, Star(Dot, false)) && Layout(Gap(), 0, Star(Dot, false))
            && ProgramLen(Star(Dot, false)) == 3
  {
  }

  /** The rest of a program of one regex that is a loop followed by the byte c. */
  lemma OneRegex(code: Code, r: Regex)
    requires Layout(code, 0, Star(Dot, false)) && Layout(code, 4, r) && |code| == 7 + ProgramLen(r)
    requires var m := 4 + ProgramLen(r); code[3] == Save(0) && code[m] == Char(99) && code[m + 1] == Save(1)
                                         && code[m + 2] == Match(0)
    ensures var top := Toplevel(Paren(0, Cat(r, Lit(99))), 0);
            Layout(code, 0, Cat(Star(Dot, false), top)) && ProgramLen(Cat(Star(Dot, false), top)) == |code|
  {
    Lengths(r);
    hide ProgramLen, Layout;
    var t := Cat(r, Lit(99));
    Fold(code, 4 + ProgramLen(r), Lit(99));
    Fold(code, 4, t);
    Fold(code, 3, Paren(0, t));
    Fold(code, 3, Toplevel(Paren(0, t), 0));
    Fold(code, 0, Cat(Star(Dot, false), Toplevel(Paren(0, t), 0)));
  }

  lemma Lengths(r: Regex)
    ensures var t := Cat(r, Lit(99));
            && ProgramLen(Lit(99)) == 1 && ProgramLen(t) == 1 + ProgramLen(r)
            && ProgramLen(Paren(0, t)) == 2 + ProgramLen(t)
            && ProgramLen(Toplevel(Paren(0, t), 0)) == 3 + ProgramLen(t) && ProgramLen(Star(Dot, false)) == 3
            && ProgramLen(Cat(Star(Dot, false), Toplevel(Paren(0, t), 0))) == 6 + ProgramLen(t)
  {
    assert ProgramLen(Dot) == 1;
  }

  lemma IsProgram(code: Code, t: Regex)
    requires var re := Cat(Star(Dot, false), Toplevel(Paren(0, t), 0)); Layout(code, 0, re) && |code| == ProgramLen(re)
    requires Plain(t) && GroupsWithin(t, 1, 1)
    ensures ProgramOf(code, [Branch(0, 0, t)])
  {
    hide Layout, ProgramLen, Plain, GroupsWithin;
    var bs := [Branch(0, 0, t)];
    assert bs[0].WellFormed();
    assert Wrap(bs) == Cat(Star(Dot, false), Toplevel(Paren(0, t), 0));
  }

  lemma PlainLoops(last: Regex)
    requires last.Lit?
    ensures Plain(Cat(LoopStar(), last)) && GroupsWithin(Cat(LoopStar(), last), 1, 1)
    ensures Plain(Cat(GapPlus(), last)) && GroupsWithin(Cat(GapPlus(), last), 1, 1)
  {
  }

  lemma LoopCompiled()
    ensures ProgramOf(Loop(), LoopBranches())
  {
    hide Layout, ProgramLen, ProgramOf, LoopStar, Plain, GroupsWithin;
    PlainLoops(Lit(99));
    LoopStarLaidOut();
    LoopsFirst();
    OneRegex(Loop(), LoopStar());
    IsProgram(Loop(), Cat(LoopStar(), Lit(99)));
  }

  lemma GapCompiled()
    ensures ProgramOf(Gap(), GapBranches())
  {
    hide Layout, ProgramLen, ProgramOf, GapPlus, Plain, GroupsWithin;
    PlainLoops(Lit(99));
    GapPlusLaidOut();
    LoopsFirst();
    OneRegex(Gap(), GapPlus());
    IsProgram(Gap(), Cat(GapPlus(), Lit(99)));
  }

  lemma LoopIs()
    ensures var code := Loop();
            && |code| == 14 && code[0] == Split(3, 1) && code[1] == Any && code[3] == Save(0) && code[4] == Split(5, 11)
            && code[5] == Split(6, 9) && code[6] == Split(7, 8) && code[7] == Char(97) && code[8] == Jmp(10)
            && code[9] == Look(SmallB) && code[10] == Jmp(4) && code[11] == Char(99)
  {
  }

  lemma GapIs()
    ensures var code := Gap();
            && |code| == 12 && code[0] == Split(3, 1) && code[1] == Any && code[2] == Jmp(0) && code[3] == Save(0)
            && code[4] == Split(5, 6) && code[5] == Look(SmallB) && code[6] == Split(7, 8) && code[7] == Char(97)
            && code[8] == Split(4, 9) && code[9] == Char(99)
  {
  }

  /* The loop. */

  /** From the head of the loop to the end of its first arm. */
  lemma LoopArm(m: set<nat>, rest: seq<nat>)
    requires m !! {4, 5, 6, 7, 8}
    ensures Work(Loop(), TEXT, 0, m, [], [4] + rest) ==
            Work(Loop(), TEXT, 0, m + {4} + {5} + {6} + {7} + {8}, [7], [10] + ([9] + ([11] + rest)))
  {
    hide Work, Loop;
    LoopIs();
    Alone(7);
    var code, s := Loop(), TEXT;
    var m4 := m + {4};
    var m5 := m4 + {5};
    var m6 := m5 + {6};
    HopSplit(code, s, 0, m, [], 4, 5, 11, rest);
    HopSplit(code, s, 0, m4, [], 5, 6, 9, [11] + rest);
    HopSplit(code, s, 0, m5, [], 6, 7, 8, [9] + ([11] + rest));
    HopList(code, s, 0, m6, [], 7, [8] + ([9] + ([11] + rest)));
    HopOn(code, s, 0, m6 + {7}, [7], 8, 10, [9] + ([11] + rest));
  }

  /** The end of the loop, its second arm, and what is behind it. */
  lemma LoopTail(m: set<nat>, rest: seq<nat>)
    requires m !! {9, 11} && 4 in m
    ensures Work(Loop(), TEXT, 0, m, [7], [10] + ([9] + ([11] + rest))) ==
            Work(Loop(), TEXT, 0, m + {10} + {9} + {11}, [7, 9, 11], rest)
  {
    hide Work, Loop;
    LoopIs();
    assert [7] + [9] == [7, 9] && [7, 9] + [11] == [7, 9, 11];
    var code, s := Loop(), TEXT;
    var m1 := m + {10};
    if 10 in m {
      assert m1 == m;
      HopOver(code, s, 0, m, [7], 10, [9] + ([11] + rest));
    } else {
      HopOn(code, s, 0, m, [7], 10, 4, [9] + ([11] + rest));
      HopOver(code, s, 0, m1, [7], 4, [9] + ([11] + rest));
    }
    HopList(code, s, 0, m1, [7], 9, [11] + rest);
    HopList(code, s, 0, m1 + {9}, [7, 9], 11, rest);
  }

  lemma LoopBody(m: set<nat>, rest: seq<nat>)
    requires m !! {4, 5, 6, 7, 8, 9, 11}
    ensures Work(Loop(), TEXT, 0, m, [], [4] + rest) ==
            Work(Loop(), TEXT, 0, m + {4, 5, 6, 7, 8, 9, 10, 11}, [7, 9, 11], rest)
  {
    hide Work, Loop;
    LoopArm(m, rest);
    var m8 := m + {4} + {5} + {6} + {7} + {8};
    LoopTail(m8, rest);
    assert m8 + {10} + {9} + {11} == m + {4, 5, 6, 7, 8, 9, 10, 11};
  }

  lemma LoopStart()
    ensures Start(Loop(), TEXT) == Walk({0, 1, 3, 4, 5, 6, 7, 8, 9, 10, 11}, {}, [7, 9, 11, 1], [], 0)
  {
    hide Work, Loop;
    LoopIs();
    assert [7, 9, 11] + [1] == [7, 9, 11, 1];
    var code, s := Loop(), TEXT;
    var m0: set<nat> := {} + {0};
    var m3 := m0 + {3};
    var m := m3 + {4, 5, 6, 7, 8, 9, 10, 11};
    Alone(0);
    HopSplit(code, s, 0, {}, [], 0, 3, 1, []);
    HopOn(code, s, 0, m0, [], 3, 4, [1] + []);
    LoopBody(m3, [1] + []);
    HopList(code, s, 0, m, [7, 9, 11], 1, []);
    Done(code, s, 0, m + {1}, [7, 9, 11, 1]);
    assert m + {1} == {0, 1, 3, 4, 5, 6, 7, 8, 9, 10, 11};
  }

  lemma LoopListing()
    ensures Listing(Loop(), TEXT, 0, 10) == [7, 9, 11]
  {
    hide Work, Loop;
    LoopIs();
    Alone(10);
    var m10: set<nat> := {} + {10};
    HopOn(Loop(), TEXT, 0, {}, [], 10, 4, []);
    LoopBody(m10, []);
    Done(Loop(), TEXT, 0, m10 + {4, 5, 6, 7, 8, 9, 10, 11}, [7, 9, 11]);
  }

  lemma LeadsOn(code: Code, u: nat, v: nat, w: nat)
    requires Leads(code, false, u, v) && w in Steps(code, false, v)
    ensures Leads(code, false, u, w)
  {
    hide Leads, Steps;
    LeadsStep(code, false, v, w);
    LeadsTwice(code, false, u, v, w);
  }

  lemma LoopTangled()
    ensures Tangled(Loop(), 9, 7)
  {
    hide Leads;
    var code := Loop();
    LeadsSelf(code, false, 10);
    LeadsOn(code, 10, 10, 4);
    LeadsOn(code, 10, 4, 5);
    LeadsOn(code, 10, 5, 9);
    LeadsOn(code, 10, 5, 6);
    LeadsOn(code, 10, 6, 8);
    LeadsStep(code, false, 8, 10);
    LeadsLooks(code, 10, 9);
  }

  lemma LoopCycle()
    ensures forall v: nat :: Leads(Loop(), false, 10, v) ==> v in {4, 5, 6, 7, 8, 9, 10, 11}
  {
    hide Leads;
    Stays(Loop(), {4, 5, 6, 7, 8, 9, 10, 11}, 10);
  }

  lemma LoopOrder()
    ensures var l := Listing(Loop(), TEXT, 0, 10); 9 in l && 7 in l && Precedes(l, 7, 9)
  {
    LoopListing();
    hide Listing;
    var l: seq<nat> := [7, 9, 11];
    assert l[0] == 7 && l[1] == 9;
  }

  lemma LoopIsLooping()
    ensures Looping(Loop(), TEXT, 0, 9, 7)
  {
    LoopTangled();
    LoopCycle();
    LoopOrder();
    hide Tangled, Leads, Listing, Precedes;
  }

  lemma LoopIsGoing()
    ensures Going(Loop(), TEXT, 0, 9, 7, Start(Loop(), TEXT))
  {
    LoopStart();
    LoopCycle();
    LoopOrder();
    hide Leads, Start, Listing;
    var list: seq<nat> := [7, 9, 11, 1];
    assert list[0] == 7 && list[1] == 9 && list[2] == 11 && list[3] == 1;
    assert Fed(list, 0, 1, 7, false);
    assert Lively(list, 0, 9, 7, false, true);
  }

  /** On the compiled (?:a?|\b)*c and "a" the search never ends, and its list passes
      every bound, that of the length of the program among them. */
  lemma LoopShows()
    ensures ProgramOf(Loop(), LoopBranches()) && Going(Loop(), TEXT, 0, 9, 7, Start(Loop(), TEXT))
            && !Ends(Loop(), TEXT)
    ensures forall fuel: nat ::
              var r := SearchAhead(Loop(), TEXT, fuel);
              r.Open? && r.p == 0 && |r.walk.list| > fuel
  {
    LoopCompiled();
    LoopIsLooping();
    LoopIsGoing();
    LoopStart();
    hide Loop, LoopBranches, Looping, Going, Ends, ProgramOf, Start;
    GoOn(Loop(), TEXT, 0, Start(Loop(), TEXT), 0);
    NeverEnds(Loop(), TEXT, 9, 7, 0);
  }

  /* The gap. */

  /** From the head of the loop: the assertion comes first. */
  lemma GapBody(m: set<nat>, p: nat, rest: seq<nat>)
    requires m !! {4, 5, 6, 7}
    ensures Work(Gap(), TEXT, p, m, [], [4] + rest) ==
            Work(Gap(), TEXT, p, m + {4} + {5} + {6} + {7}, [5, 7], [8] + rest)
  {
    hide Work, Gap;
    GapIs();
    Alone(5);
    assert [5] + [7] == [5, 7];
    var code, s := Gap(), TEXT;
    var m4 := m + {4};
    var m5 := m4 + {5};
    HopSplit(code, s, p, m, [], 4, 5, 6, rest);
    HopList(code, s, p, m4, [], 5, [6] + rest);
    HopSplit(code, s, p, m5, [5], 6, 7, 8, rest);
    HopList(code, s, p, m5 + {6}, [5], 7, [8] + rest);
  }

  /** The end of the loop and what is behind it. */
  lemma GapTail(m: set<nat>, rest: seq<nat>)
    requires m !! {8, 9} && 4 in m
    ensures Work(Gap(), TEXT, 0, m, [5, 7], [8] + rest) == Work(Gap(), TEXT, 0, m + {8} + {9}, [5, 7, 9], rest)
  {
    hide Work, Gap;
    GapIs();
    assert [5, 7] + [9] == [5, 7, 9];
    var code, s := Gap(), TEXT;
    var m8 := m + {8};
    HopSplit(code, s, 0, m, [5, 7], 8, 4, 9, rest);
    HopOver(code, s, 0, m8, [5, 7], 4, [9] + rest);
    HopList(code, s, 0, m8, [5, 7], 9, rest);
  }

  lemma GapStart()
    ensures Start(Gap(), TEXT) == Walk({0, 1, 3, 4, 5, 6, 7, 8, 9}, {}, [5, 7, 9, 1], [], 0)
  {
    hide Work, Gap;
    GapIs();
    assert [5, 7, 9] + [1] == [5, 7, 9, 1];
    var code, s := Gap(), TEXT;
    var m0: set<nat> := {} + {0};
    var m3 := m0 + {3};
    Alone(0);
    HopSplit(code, s, 0, {}, [], 0, 3, 1, []);
    HopOn(code, s, 0, m0, [], 3, 4, [1] + []);
    GapBody(m3, 0, [1] + []);
    var m7 := m3 + {4} + {5} + {6} + {7};
    GapTail(m7, [1] + []);
    var m9 := m7 + {8} + {9};
    HopList(code, s, 0, m9, [5, 7, 9], 1, []);
    Done(code, s, 0, m9 + {1}, [5, 7, 9, 1]);
    assert m9 + {1} == {0, 1, 3, 4, 5, 6, 7, 8, 9};
  }

  /** The byte a, behind the loop body. */
  lemma GapByte()
    ensures Work(Gap(), TEXT, 1, {}, [], [8]) == Seen({4, 5, 6, 7, 8, 9}, [5, 7, 9])
  {
    hide Work, Gap;
    GapIs();
    assert [5, 7] + [9] == [5, 7, 9];
    var code, s := Gap(), TEXT;
    var m: set<nat> := {} + {8};
    var m7 := m + {4} + {5} + {6} + {7};
    Alone(8);
    HopSplit(code, s, 1, {}, [], 8, 4, 9, []);
    GapBody(m, 1, [9] + []);
    HopOver(code, s, 1, m7, [5, 7], 8, [9] + []);
    HopList(code, s, 1, m7, [5, 7], 9, []);
    Done(code, s, 1, m7 + {9}, [5, 7, 9]);
    assert m7 + {9} == {4, 5, 6, 7, 8, 9};
  }

  /** Any byte, in the search loop. */
  lemma GapDot()
    ensures Work(Gap(), TEXT, 1, {4, 5, 6, 7, 8, 9}, [5, 7, 9], [2]) ==
            Seen({0, 1, 2, 3, 4, 5, 6, 7, 8, 9}, [5, 7, 9, 1])
  {
    hide Work, Gap;
    GapIs();
    assert [5, 7, 9] + [1] == [5, 7, 9, 1];
    var code, s := Gap(), TEXT;
    var m := {4, 5, 6, 7, 8, 9};
    var m2 := m + {2};
    var m0 := m2 + {0};
    var m3 := m0 + {3};
    var l := [5, 7, 9];
    Alone(2);
    HopOn(code, s, 1, m, l, 2, 0, []);
    HopSplit(code, s, 1, m2, l, 0, 3, 1, []);
    HopOn(code, s, 1, m0, l, 3, 4, [1] + []);
    HopOver(code, s, 1, m3, l, 4, [1] + []);
    HopList(code, s, 1, m3, l, 1, []);
    Done(code, s, 1, m3 + {1}, l + [1]);
    assert m3 + {1} == {0, 1, 2, 3, 4, 5, 6, 7, 8, 9};
  }

  /** What is behind the assertion is marked already. */
  lemma GapAhead(p: nat, marked: set<nat>, list: seq<nat>)
    requires 6 in marked
    ensures Work(Gap(), TEXT, p, marked, list, [6]) == Seen(marked, list)
  {
    hide Work, Gap;
    GapIs();
    Alone(6);
    HopOver(Gap(), TEXT, p, marked, list, 6, []);
    Done(Gap(), TEXT, p, marked, list);
  }

  /** The four threads at the first position. */
  lemma GapFirst(fuel: nat)
    requires fuel >= 4
    ensures SearchAhead(Gap(), TEXT, fuel) ==
            Go(Gap(), TEXT, 1, Walk({0, 1, 2, 3, 4, 5, 6, 7, 8, 9}, {}, [5, 7, 9, 1], [], 0), fuel - 4)
  {
    hide Work, Start, Go;
    var code, s := Gap(), TEXT;
    var list: seq<nat> := [5, 7, 9, 1];
    GapStart();
    GapByte();
    GapDot();
    var m := {0, 1, 3, 4, 5, 6, 7, 8, 9};
    GapAhead(0, m, list);
    assert {} - m == {};
    var w0 := Walk(m, {}, list, [], 0);
    var w1 := Walk(m, {}, list, [], 1);
    var w2 := Walk(m - {4, 5, 6, 7, 8, 9}, {4, 5, 6, 7, 8, 9}, list, [5, 7, 9], 2);
    var w3 := w2.(k := 3);
    var all := {0, 1, 2, 3, 4, 5, 6, 7, 8, 9};
    var w4 := Walk({}, all, list, list, 4);
    assert RunOne(code, s, 0, w0) == Option.Some(w1);
    assert RunOne(code, s, 0, w1) == Option.Some(w2);
    assert RunOne(code, s, 0, w2) == Option.Some(w3);
    assert w3.here - all == {};
    assert RunOne(code, s, 0, w3) == Option.Some(w4);
    GoOn(code, s, 0, w0, fuel);
    GoOn(code, s, 0, w1, fuel - 1);
    GoOn(code, s, 0, w2, fuel - 2);
    GoOn(code, s, 0, w3, fuel - 3);
    GoOn(code, s, 0, w4, fuel - 4);
  }

  /** The four threads at the end. */
  lemma GapLast(w: Walk, fuel: nat)
    requires w == Walk({0, 1, 2, 3, 4, 5, 6, 7, 8, 9}, {}, [5, 7, 9, 1], [], 0) && fuel >= 4
    ensures Go(Gap(), TEXT, 1, w, fuel) == Ended(DECLINED)
  {
    hide Work, Go;
    var code, s := Gap(), TEXT;
    GapAhead(1, w.here, w.list);
    assert {} - w.here == {};
    assert RunOne(code, s, 1, w) == Option.Some(w.(k := 1));
    assert RunOne(code, s, 1, w.(k := 1)) == Option.Some(w.(k := 2));
    assert RunOne(code, s, 1, w.(k := 2)) == Option.Some(w.(k := 3));
    assert RunOne(code, s, 1, w.(k := 3)) == Option.Some(w.(k := 4));
    GoOn(code, s, 1, w, fuel);
    GoOn(code, s, 1, w.(k := 1), fuel - 1);
    GoOn(code, s, 1, w.(k := 2), fuel - 2);
    GoOn(code, s, 1, w.(k := 3), fuel - 3);
    GoOn(code, s, 1, w.(k := 4), fuel - 4);
  }

  lemma GapTangled()
    ensures Tangled(Gap(), 5, 7)
  {
    hide Leads;
    var code := Gap();
    LeadsSelf(code, false, 6);
    LeadsOn(code, 6, 6, 8);
    LeadsOn(code, 6, 8, 4);
    LeadsOn(code, 6, 4, 5);
    LeadsSelf(code, false, 8);
    LeadsOn(code, 8, 8, 4);
    LeadsOn(code, 8, 4, 6);
    LeadsLooks(code, 6, 5);
  }

  lemma GapCycle()
    ensures forall v: nat :: Leads(Gap(), false, 6, v) ==> v in {4, 5, 6, 7, 8, 9}
  {
    hide Leads;
    Stays(Gap(), {4, 5, 6, 7, 8, 9}, 6);
  }

  lemma GapListing()
    ensures Listing(Gap(), TEXT, 0, 6) == [7, 5, 9]
  {
    hide Work, Gap;
    GapIs();
    Alone(6);
    Alone(7);
    assert [7] + [5] == [7, 5] && [7, 5] + [9] == [7, 5, 9];
    var code, s := Gap(), TEXT;
    var m6: set<nat> := {} + {6};
    var m7 := m6 + {7};
    var m8 := m7 + {8};
    var m4 := m8 + {4};
    HopSplit(code, s, 0, {}, [], 6, 7, 8, []);
    HopList(code, s, 0, m6, [], 7, [8] + []);
    HopSplit(code, s, 0, m7, [7], 8, 4, 9, []);
    HopSplit(code, s, 0, m8, [7], 4, 5, 6, [9] + []);
    HopList(code, s, 0, m4, [7], 5, [6] + ([9] + []));
    HopOver(code, s, 0, m4 + {5}, [7, 5], 6, [9] + []);
    HopList(code, s, 0, m4 + {5}, [7, 5], 9, []);
    Done(code, s, 0, m4 + {5} + {9}, [7, 5, 9]);
  }

  lemma GapIsLooping()
    ensures Looping(Gap(), TEXT, 0, 5, 7) && TangledAt(Gap(), TEXT, 0)
  {
    GapTangled();
    GapCycle();
    GapListing();
    hide Tangled, Leads, Listing;
    var l: seq<nat> := [7, 5, 9];
    assert l[0] == 7 && l[1] == 5;
  }

  lemma GapIsRound()
    ensures Round(Gap(), TEXT, 0, 5, Start(Gap(), TEXT))
  {
    GapStart();
    GapCycle();
    hide Leads, Start;
    var list: seq<nat> := [5, 7, 9, 1];
    assert list[0] == 5 && list[1] == 7 && list[2] == 9 && list[3] == 1;
  }

  /** The compiled (?:\b?a?)+c is tangled on "a" in the same way, no match ends, and the
      search ends all the same, for the order in which its first list is run. */
  lemma GapShows()
    ensures ProgramOf(Gap(), GapBranches()) && TangledAt(Gap(), TEXT, 0) && !AcceptsBefore(Gap(), TEXT, 1)
    ensures Looping(Gap(), TEXT, 0, 5, 7) && Round(Gap(), TEXT, 0, 5, Start(Gap(), TEXT))
    ensures SearchAhead(Gap(), TEXT, 8) == Ended(DECLINED)
  {
    GapCompiled();
    GapIsLooping();
    GapIsRound();
    GapFirst(8);
    hide Gap, GapBranches, ProgramOf, TangledAt, Accepting, WellTargeted, SearchAhead, Looping, Round, Start;
    GapLast(Walk({0, 1, 2, 3, 4, 5, 6, 7, 8, 9}, {}, [5, 7, 9, 1], [], 0), 4);
    ProgramTargets(Gap(), GapBranches());
    SearchRight(Gap(), TEXT, 8);
  }
}
