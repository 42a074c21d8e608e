/** A regex on which the jump to the next leading byte loses part of a match:
    a+b? on "xab" is answered by "a", while "ab" is preferred. */
module PikeSkipExample {
  import opened Regexes
  import opened Bytecode
  import opened Compiler
  import opened Programs
  import opened PikeMachine
  import opened LeadingBytes
  import opened PikeStream
  import opened PikeSkipExact

  function Tree(): Regex {
    Cat(Plus(Lit(97), true), Quest(Lit(98), true))
  }

  function Branches(): seq<Branch> {
    [Branch(0, 0, Tree())]
  }

  function Example(): Code {
    [Split(3, 1), Any, Jmp(0), Save(0), Char(97), Split(4, 6), Split(7, 8), Char(98), Save(1), Match(0)]
  }

  lemma LoopLaidOut()
    ensures Layout(Example(), 0, Star(Dot, false)) && ProgramLen(Star(Dot, false)) == 3
  {
  }

  lemma TreeLaidOut()
    ensures Layout(Example(), 4, Tree()) && ProgramLen(Tree()) == 4
  {
    assert Layout(Example(), 4, Plus(Lit(97), true));
    assert Layout(Example(), 6, Quest(Lit(98), true));
  }

  lemma Wraps(r: Regex)
    ensures ProgramLen(Paren(0, r)) == 2 + ProgramLen(r) && ProgramLen(Toplevel(Paren(0, r), 0)) == 3 + ProgramLen(r)
  {
  }

  lemma TopLaidOut()
    ensures var top := Toplevel(Paren(0, Tree()), 0); Layout(Example(), 3, top) && ProgramLen(top) == 7
  {
    hide Tree, Layout, ProgramLen;
    TreeLaidOut();
    Wraps(Tree());
    Fold(Example(), 3, Paren(0, Tree()));
    Fold(Example(), 3, Toplevel(Paren(0, Tree()), 0));
  }

  lemma ExampleIsCompiled()
    ensures ProgramOf(Example(), Branches())
  {
    LoopLaidOut();
    TopLaidOut();
    var top := Toplevel(Paren(0, Tree()), 0);
    assert Wrap(Branches()) == Cat(Star(Dot, false), top);
    assert Layout(Example(), 0, Cat(Star(Dot, false), top)) by { hide Tree; }
  }

  function Vec(a: int, b: int): seq<int> {
    [a, b]
  }

  lemma StartIs(at: Place)
    ensures Begin(Example(), at, 2).threads == [Thread(4, Vec(at.pos, -1)), Thread(1, Vec(-1, -1))]
  {
    var code, v, w := Example(), Blank(2), Vec(at.pos, -1);
    assert v == Vec(-1, -1) && v[0 := at.pos] == w;
    assert Add(code, at, {0} + {3}, [], 4, w, false) == Added({0} + {3} + {4}, [Thread(4, w)], None);
    assert Add(code, at, {0}, [], 3, v, false) == Added({0} + {3} + {4}, [Thread(4, w)], None);
    assert {} + {0} == {0};
  }

  /** The byte a consumed by the first thread. */
  lemma AfterA(at: Place, start: int)
    ensures var r, v := Add(Example(), at, {}, [], 5, Vec(start, -1), true), Vec(start, -1);
            r.threads == [Thread(4, v), Thread(7, v)] && r.hit == Some(Hit(0, Vec(start, at.pos)))
  {
    var code, v, w := Example(), Vec(start, -1), Vec(start, at.pos);
    assert v[1 := at.pos] == w;
    var t4, t7 := Thread(4, v), Thread(7, v);
    assert Add(code, at, {5}, [], 4, v, true) == Added({5} + {4}, [t4], None);
    assert [t4] + [t7] == [t4, t7];
    assert Add(code, at, {5} + {4} + {6}, [t4], 7, v, true) == Added({5} + {4} + {6} + {7}, [t4, t7], None);
    var s8 := {5} + {4} + {6} + {7};
    assert Add(code, at, s8 + {8}, [t4, t7], 9, w, true) == Added(s8 + {8} + {9}, [t4, t7], Some(Hit(0, w)));
    assert Add(code, at, s8, [t4, t7], 8, v, true) == Add(code, at, s8 + {8}, [t4, t7], 9, w, true);
    assert {} + {5} == {5};
  }

  /** The byte b consumed by a thread behind the loop. */
  lemma AfterB(at: Place, start: int)
    ensures Add(Example(), at, {}, [], 8, Vec(start, -1), true) == Added({8, 9}, [], Some(Hit(0, Vec(start, at.pos))))
  {
    var code, v, w := Example(), Vec(start, -1), Vec(start, at.pos);
    assert v[1 := at.pos] == w && {8} + {9} == {8, 9};
    assert Add(code, at, {8}, [], 9, w, true) == Added({8, 9}, [], Some(Hit(0, w)));
    assert {} + {8} == {8};
  }

  lemma LeadingIsA()
    ensures LeadingOf(Example()) == Some([4])
  {
    var code := Example();
    assert Collect(code, {0} + {3}, [], 4) == Lead({0} + {3} + {4}, [4], Collected);
    assert Collect(code, {0}, [], 3) == Lead({0} + {3} + {4}, [4], Collected);
    assert {} + {0} == {0};
  }

  /** "xab". */
  const TEXT: seq<Byte> := [120, 97, 98]

  /** RunThreads on a list whose first thread matches at once. */
  lemma FirstHits(c: Byte, there: Place, list: seq<Thread>)
    requires list != [] && list[0].pc < 9 && Example()[list[0].pc].Accepts(c)
    requires Add(Example(), there, {}, [], list[0].pc + 1, list[0].vec, true).hit.Some?
    ensures RunThreads(Example(), Some(c), there, list, {}, []) ==
            Add(Example(), there, {}, [], list[0].pc + 1, list[0].vec, true)
  {
    hide Add;
  }

  /** With the jump the answer is (1, 2). */
  lemma WithJump()
    ensures var ctx := SetupOf(Example(), 2); ctx.Exec(TEXT, true, ctx.Fresh()) == Matched(Hit(0, Vec(1, 2)))
  {
    var ctx, code := SetupOf(Example(), 2), Example();
    LeadingIsA();
    StartIs(Place(0, true, true));
    StartIs(PlaceIn(TEXT, 1));
    StartIs(PlaceIn(TEXT, 3));
    AfterA(PlaceIn(TEXT, 2), 1);
    var m0 := ctx.Fresh();
    var m1 := Machine(1, ctx.StartList(PlaceIn(TEXT, 1)), None, true);
    JumpsTo(ctx, m0, 1);
    FirstHits(97, PlaceIn(TEXT, 2), m1.list);
    var m2 := Machine(2, [Thread(4, Vec(1, -1)), Thread(7, Vec(1, -1))], Some(Hit(0, Vec(1, 2))), true);
    assert ctx.Advance(TEXT, m1) == m2 by { hide RunThreads, Add, Example; }
    JumpsTo(ctx, m2, 3);
    hide Setup.Jump, Setup.Advance, Example, Vec, Begin;
    assert ctx.Feed(TEXT, true, m2).matched == Some(Hit(0, Vec(1, 2)));
    assert ctx.Feed(TEXT, true, m0) == ctx.Feed(TEXT, true, m2);
  }

  lemma JumpsTo(ctx: Setup, m: Machine, q: nat)
    requires ctx == SetupOf(Example(), 2) && LeadingOf(Example()) == Some([4])
    requires ctx.Initial() == [Thread(4, Vec(0, -1)), Thread(1, Vec(-1, -1))]
    requires |m.list| == 2 && m.list[0].pc == 4 && m.seen
    requires (m.pos == 0 && q == 1) || (m.pos == 2 && q == 3)
    ensures ctx.Jump(TEXT, m) == Machine(q, ctx.StartList(PlaceIn(TEXT, q)), m.matched, true)
  {
    hide Begin, Setup.StartList, LeadingOf, Setup.FirstByte, Setup.Initial;
    assert [4][0] == 4;
    assert Hits(Example(), [4], 97) && !Hits(Example(), [4], 120) && !Hits(Example(), [4], 98);
    var q' := ctx.FirstByte(TEXT, m.pos);
    assert TEXT[0] == 120 && TEXT[1] == 97 && TEXT[2] == 98;
    assert q' > m.pos && q' <= q;
  }

  /** Without it the answer is (1, 3). */
  lemma WithoutJump()
    ensures Answer(Example(), TEXT, 2) == Some(Hit(0, Vec(1, 3)))
  {
    var code := Example();
    StartIs(PlaceIn(TEXT, 0));
    var list0 := Begin(code, PlaceIn(TEXT, 0), 2).threads;
    StepX();
    var list1 := [Thread(4, Vec(1, -1)), Thread(1, Vec(-1, -1))];
    AfterA(PlaceIn(TEXT, 2), 1);
    FirstHits(97, PlaceIn(TEXT, 2), list1);
    var list2, hit2 := [Thread(4, Vec(1, -1)), Thread(7, Vec(1, -1))], Some(Hit(0, Vec(1, 2)));
    StepB(list2);
    hide Begin, Example, Vec, RunThreads;
    assert Scan(code, TEXT, 3, [], Some(Hit(0, Vec(1, 3)))) == Some(Hit(0, Vec(1, 3)));
    assert Scan(code, TEXT, 2, list2, hit2) == Some(Hit(0, Vec(1, 3)));
    assert Scan(code, TEXT, 1, list1, None) == Some(Hit(0, Vec(1, 3)));
  }

  lemma StepX()
    ensures var r := Step(Example(), TEXT, 0, [Thread(4, Vec(0, -1)), Thread(1, Vec(-1, -1))]);
            r.threads == [Thread(4, Vec(1, -1)), Thread(1, Vec(-1, -1))] && r.hit == None
  {
    var code, at, v, w := Example(), PlaceIn(TEXT, 1), Vec(-1, -1), Vec(1, -1);
    assert v[0 := 1] == w && [Thread(4, w)] + [Thread(1, v)] == [Thread(4, w), Thread(1, v)];
    var s3 := {2} + {0};
    var r4 := Added(s3 + {3} + {4}, [Thread(4, w)], None);
    assert Add(code, at, s3 + {3}, [], 4, w, true) == r4;
    assert Add(code, at, s3, [], 3, v, true) == r4;
    var r1 := Added(r4.visited + {1}, [Thread(4, w), Thread(1, v)], None);
    assert Add(code, at, r4.visited, r4.threads, 1, v, true) == r1;
    assert Add(code, at, {2}, [], 0, v, true) == r1;
    assert {} + {2} == {2};
    assert Add(code, at, {}, [], 2, v, true) == r1;
    hide Add;
    var list := [Thread(4, Vec(0, -1)), Thread(1, v)];
    assert list[1..] == [Thread(1, v)];
    assert RunThreads(code, Some(120), at, [], r1.visited, r1.threads) == r1;
    assert RunThreads(code, Some(120), at, [Thread(1, v)], {}, []) == r1;
  }

  lemma StepB(list: seq<Thread>)
    requires list == [Thread(4, Vec(1, -1)), Thread(7, Vec(1, -1))]
    ensures var r := Step(Example(), TEXT, 2, list); r.threads == [] && r.hit == Some(Hit(0, Vec(1, 3)))
  {
    var at := PlaceIn(TEXT, 3);
    AfterB(at, 1);
    FirstHits(98, at, list[1..]);
    hide Add;
    assert RunThreads(Example(), Some(98), at, list, {}, []) == RunThreads(Example(), Some(98), at, list[1..], {}, []);
  }

  /** The compiled a+b? is a program the jump is not invisible for. */
  lemma SkipShows()
    ensures ProgramOf(Example(), Branches())
    ensures var ctx := SetupOf(Example(), 2);
            ctx.Exec(TEXT, true, ctx.Fresh()) == Matched(Hit(0, [1, 2]))
                && Answer(Example(), TEXT, 2) == Some(Hit(0, [1, 3]))
  {
    ExampleIsCompiled();
    WithJump();
    WithoutJump();
    hide Example, Branches, SetupOf, Answer, Setup.Exec;
  }
}
