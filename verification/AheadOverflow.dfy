/** A family of regexes without loops whose thread lists do not fit into arrays of
    program length: (?:a|(?:\b|(?:a|(?:\b|...)))) and then d?(?:d?(?:...d)), on "a".

    Every a takes back the marks of what is behind the arms, and every \b puts it onto the
    list once more. */
module AheadOverflow {
  import opened Regexes
  import opened Bytecode
  import opened Compiler
  import opened Programs
  import opened Finite
  import opened AheadMachine
  import opened AheadEnds
  import opened AheadLoops

  /** "a". */
  const TEXT: seq<Byte> := [97]

  /** `r` pairs of arms a|\b. */
  function Arms(r: nat): Regex
    requires r > 0
  {
    if r == 1 then Alt(Lit(97), Assert(SmallB)) else Alt(Lit(97), Alt(Assert(SmallB), Arms(r - 1)))
  }

  /** `m` times d?, then d. */
  function Tail(m: nat): Regex {
    if m == 0 then Lit(100) else Cat(Quest(Lit(100), true), Tail(m - 1))
  }

  function Branches(r: nat, m: nat): seq<Branch>
    requires r > 0
  {
    [Branch(0, 0, Cat(Arms(r), Tail(m)))]
  }

  /* The code. */

  lemma {:induction false} ArmsLength(r: nat)
    requires r > 0
    ensures ProgramLen(Arms(r)) == 6 * r - 2
    decreases r
  {
    assert ProgramLen(Lit(97)) == 1 && ProgramLen(Assert(SmallB)) == 1;
    if r > 1 {
      ArmsLength(r - 1);
      assert ProgramLen(Alt(Assert(SmallB), Arms(r - 1))) == 3 + ProgramLen(Arms(r - 1));
    }
  }

  lemma {:induction false} TailLength(m: nat)
    ensures ProgramLen(Tail(m)) == 2 * m + 1
    decreases m
  {
    if m > 0 {
      TailLength(m - 1);
      assert ProgramLen(Lit(100)) == 1;
      assert ProgramLen(Quest(Lit(100), true)) == 2;
    }
  }

  /** The code of the arms, which lead to `e`. */
  predicate Pairs(code: Code, b: nat, r: nat, e: nat)
    requires r > 0
    decreases r
  {
    && b + 6 * r - 2 == e < |code|
    && code[b] == Split(b + 1, b + 3) && code[b + 1] == Char(97) && code[b + 2] == Jmp(e)
    && if r == 1 then code[b + 3] == Look(SmallB)
       else code[b + 3] == Split(b + 4, b + 6) && code[b + 4] == Look(SmallB) && code[b + 5] == Jmp(e)
            && Pairs(code, b + 6, r - 1, e)
  }

  lemma {:induction false} ArmsLaidOut(code: Code, b: nat, r: nat)
    requires r > 0 && Layout(code, b, Arms(r)) && b + 6 * r - 2 < |code|
    ensures Pairs(code, b, r, b + 6 * r - 2)
    decreases r
  {
    hide Layout, ProgramLen;
    ArmsLength(r);
    if r == 1 {
      UnfoldAlt(code, b, Lit(97), Assert(SmallB));
      UnfoldLeaf(code, b + 1, Lit(97));
      UnfoldLeaf(code, b + 3, Assert(SmallB));
    } else {
      ArmsLength(r - 1);
      var rest := Alt(Assert(SmallB), Arms(r - 1));
      UnfoldAlt(code, b, Lit(97), rest);
      UnfoldLeaf(code, b + 1, Lit(97));
      UnfoldAlt(code, b + 3, Assert(SmallB), Arms(r - 1));
      UnfoldLeaf(code, b + 4, Assert(SmallB));
      ArmsLaidOut(code, b + 6, r - 1);
    }
  }

  /** The code of the tail. */
  predicate Quests(code: Code, b: nat, m: nat)
    decreases m
  {
    && b + 2 * m < |code|
    && if m == 0 then code[b] == Char(100)
       else code[b] == Split(b + 1, b + 2) && code[b + 1] == Char(100) && Quests(code, b + 2, m - 1)
  }

  lemma {:induction false} TailLaidOut(code: Code, b: nat, m: nat)
    requires Layout(code, b, Tail(m))
    ensures Quests(code, b, m)
    decreases m
  {
    hide Layout, ProgramLen;
    TailLength(m);
    if m == 0 {
      UnfoldLeaf(code, b, Lit(100));
    } else {
      UnfoldCat(code, b, Quest(Lit(100), true), Tail(m - 1));
      UnfoldQuest(code, b, Lit(100), true);
      UnfoldLeaf(code, b + 1, Lit(100));
      TailLaidOut(code, b + 2, m - 1);
    }
  }

  lemma {:induction false} QuestInst(code: Code, b: nat, m: nat, v: nat)
    requires Quests(code, b, m) && b <= v <= b + 2 * m
    ensures v < |code| && (code[v] == Char(100) || (code[v] == Split(v + 1, v + 2) && v + 2 <= b + 2 * m))
    decreases m
  {
    if v >= b + 2 { QuestInst(code, b + 2, m - 1, v); }
  }

  /** The whole program: the search loop, the arms, the tail. */
  predicate Shape(code: Code, r: nat, m: nat)
    requires r > 0
  {
    var e := 6 * r + 2;
    && |code| == e + 2 * m + 3 && code[0] == Split(3, 1) && code[1] == Any && code[3] == Save(0)
    && Pairs(code, 4, r, e) && Quests(code, e, m)
    && code[e + 2 * m + 1] == Save(1) && code[e + 2 * m + 2] == Match(0)
  }

  lemma ProgramShape(code: Code, r: nat, m: nat)
    requires r > 0 && ProgramOf(code, Branches(r, m))
    ensures Shape(code, r, m)
  {
    hide *;
    var t := Cat(Arms(r), Tail(m));
    var p := Paren(0, t);
    BranchIs(r, m);
    ProgramSearches(code, Branches(r, m));
    IsSearching(code);
    WrapsOne(code, Branches(r, m));
    ArmsLength(r);
    TailLength(m);
    SearchLength();
    UnfoldCat(code, 0, Star(Dot, false), Toplevel(p, 0));
    UnfoldToplevel(code, 3, p, 0);
    UnfoldParen(code, 3, 0, t);
    UnfoldCat(code, 4, Arms(r), Tail(m));
    ArmsLaidOut(code, 4, r);
    TailLaidOut(code, 6 * r + 2, m);
    IsShape(code, r, m);
  }

  lemma IsSearching(code: Code)
    requires Searching(code)
    ensures |code| > 3 && code[0] == Split(3, 1) && code[1] == Any
  {
  }

  lemma BranchIs(r: nat, m: nat)
    requires r > 0
    ensures Branches(r, m) == [Branch(0, 0, Cat(Arms(r), Tail(m)))]
  {
  }

  lemma WrapsOne(code: Code, bs: seq<Branch>)
    requires ProgramOf(code, bs) && |bs| == 1
    ensures var re := Cat(Star(Dot, false), Toplevel(Paren(bs[0].group, bs[0].tree), 0));
            Layout(code, 0, re) && |code| == ProgramLen(re)
  {
    hide Layout, ProgramLen;
    assert Wrap(bs) == Cat(Star(Dot, false), Toplevel(Paren(bs[0].group, bs[0].tree), 0));
  }

  lemma IsShape(code: Code, r: nat, m: nat)
    requires r > 0 && |code| == 6 * r + 2 * m + 5 && code[0] == Split(3, 1) && code[1] == Any && code[3] == Save(0)
    requires var e := 6 * r + 2;
             Pairs(code, 4, r, e) && Quests(code, e, m) && code[e + 2 * m + 1] == Save(1)
                 && code[e + 2 * m + 2] == Match(0)
    ensures Shape(code, r, m)
  {
    hide Pairs, Quests;
  }

  lemma SearchLength()
    ensures ProgramLen(Star(Dot, false)) == 3
  {
    assert ProgramLen(Dot) == 1;
  }

  /* The first list. */

  function Second(b: nat, r: nat): nat {
    if r == 1 then b + 3 else b + 4
  }

  function Entries(b: nat, r: nat): (l: seq<nat>)
    requires r > 0
    ensures |l| == 2 * r
    decreases r
  {
    [b + 1] + [Second(b, r)] + (if r == 1 then [] else Entries(b + 6, r - 1))
  }

  /** No mark on the jumps behind the arms. */
  ghost predicate JumpsFree(code: Code, b: nat, e: nat, marks: set<nat>) {
    forall x :: x in marks && b <= x < e && e <= |code| ==> !code[x].Jmp?
  }

  /** The first arm. */
  lemma ArmListed(code: Code, s: seq<Byte>, b: nat, r: nat, e: nat, m: set<nat>, l: seq<nat>, rest: seq<nat>)
    requires r > 0 && Pairs(code, b, r, e) && b !in m && b + 1 !in m
    ensures Work(code, s, 0, m, l, [b] + rest) == Work(code, s, 0, m + {b} + {b + 1}, l + [b + 1], [b + 3] + rest)
  {
    hide Work;
    HopSplit(code, s, 0, m, l, b, b + 1, b + 3, rest);
    HopList(code, s, 0, m + {b}, l, b + 1, [b + 3] + rest);
  }

  lemma {:induction false} PairsListed(code: Code, s: seq<Byte>, b: nat, r: nat, e: nat, m: set<nat>, l: seq<nat>,
                                       rest: seq<nat>)
    returns (m': set<nat>)
    requires r > 0 && Pairs(code, b, r, e) && forall x :: x in m ==> !(b <= x < e)
    ensures Work(code, s, 0, m, l, [b] + rest) == Work(code, s, 0, m', l + Entries(b, r), rest)
    ensures forall x :: x in m' ==> x in m || (b <= x < e && !code[x].Jmp?)
    decreases r
  {
    hide Work;
    PairsEnd(code, b, r, e);
    ArmListed(code, s, b, r, e, m, l, rest);
    var m2, l2 := m + {b} + {b + 1}, l + [b + 1];
    if r == 1 {
      HopList(code, s, 0, m2, l2, b + 3, rest);
      m' := m2 + {b + 3};
      assert l2 + [b + 3] == l + Entries(b, r);
    } else {
      SecondListed(code, s, b, r, e, m2, l2, rest);
      m' := PairsListed(code, s, b + 6, r - 1, e, m2 + {b + 3} + {b + 4}, l2 + [b + 4], rest);
      EntriesOn(b, r, l);
    }
  }

  /** The second arm, if there are more. */
  lemma SecondListed(code: Code, s: seq<Byte>, b: nat, r: nat, e: nat, m: set<nat>, l: seq<nat>, rest: seq<nat>)
    requires r > 1 && Pairs(code, b, r, e) && b + 3 !in m && b + 4 !in m
    ensures Work(code, s, 0, m, l, [b + 3] + rest) ==
            Work(code, s, 0, m + {b + 3} + {b + 4}, l + [b + 4], [b + 6] + rest)
  {
    hide Work;
    HopSplit(code, s, 0, m, l, b + 3, b + 4, b + 6, rest);
    HopList(code, s, 0, m + {b + 3}, l, b + 4, [b + 6] + rest);
  }

  lemma EntriesOn(b: nat, r: nat, l: seq<nat>)
    requires r > 1
    ensures l + [b + 1] + [b + 4] + Entries(b + 6, r - 1) == l + Entries(b, r)
  {
  }

  /** The search starts with all arms and the dot. */
  lemma StartList(code: Code, r: nat, m: nat)
    requires r > 0 && Shape(code, r, m)
    ensures var w, e := Start(code, TEXT), 6 * r + 2;
            && w.list == Entries(4, r) + [1] && w.k == 0 && w.there == {} && JumpsFree(code, 4, e, w.here)
            && forall x :: x in w.here ==> x < e
  {
    hide Work, Pairs, Entries;
    var e := 6 * r + 2;
    var m0: set<nat> := {} + {0};
    var m3 := m0 + {3};
    Alone(0);
    HopSplit(code, TEXT, 0, {}, [], 0, 3, 1, []);
    HopOn(code, TEXT, 0, m0, [], 3, 4, [1] + []);
    PairsEnd(code, 4, r, e);
    var m' := PairsListed(code, TEXT, 4, r, e, m3, [], [1] + []);
    assert [] + Entries(4, r) == Entries(4, r);
    HopList(code, TEXT, 0, m', Entries(4, r), 1, []);
    Done(code, TEXT, 0, m' + {1}, Entries(4, r) + [1]);
  }

  lemma PairsEnd(code: Code, b: nat, r: nat, e: nat)
    requires r > 0 && Pairs(code, b, r, e)
    ensures b + 6 * r - 2 == e < |code|
  {
  }

  /* What is behind the arms. */

  function TailSet(code: Code, e: nat): set<nat> {
    set v | v in UpTo(|code|) && e <= v
  }

  /** What is listed and marked from there. */
  function TailSeen(code: Code, e: nat): Seen {
    Work(code, TEXT, 0, {}, [], [e])
  }

  lemma TailShut(code: Code, r: nat, m: nat, v: nat)
    requires r > 0 && Shape(code, r, m) && v in TailSet(code, 6 * r + 2)
    ensures v < |code| && Now(code, TEXT, 0, v) == Now(code, TEXT, 1, v)
    ensures forall x :: x in Now(code, TEXT, 0, v) ==> x in TailSet(code, 6 * r + 2)
  {
    hide Pairs, Quests;
    var e := 6 * r + 2;
    if v <= e + 2 * m { QuestInst(code, e, m, v); }
  }

  lemma {:induction false} TailListed(code: Code, b: nat, m: nat, marks: set<nat>, l: seq<nat>) returns (r: Seen)
    requires Quests(code, b, m) && forall x :: x in marks ==> x < b
    ensures r == Work(code, TEXT, 0, marks, l, [b]) && |r.list| == |l| + m + 1
    decreases m
  {
    hide Work;
    Alone(b);
    if m == 0 {
      HopList(code, TEXT, 0, marks, l, b, []);
      Done(code, TEXT, 0, marks + {b}, l + [b]);
      r := Seen(marks + {b}, l + [b]);
    } else {
      HopSplit(code, TEXT, 0, marks, l, b, b + 1, b + 2, []);
      HopList(code, TEXT, 0, marks + {b}, l, b + 1, [b + 2] + []);
      Alone(b + 2);
      r := TailListed(code, b + 2, m - 1, marks + {b} + {b + 1}, l + [b + 1]);
    }
  }

  lemma TailCount(code: Code, r: nat, m: nat)
    requires r > 0 && Shape(code, r, m)
    ensures |TailSeen(code, 6 * r + 2).list| == m + 1
  {
    hide Pairs, Work;
    var x := TailListed(code, 6 * r + 2, m, {}, []);
  }

  /** Coming to the tail unmarked. */
  lemma TailAgain(code: Code, r: nat, m: nat, p: nat, marks: set<nat>, l: seq<nat>)
    requires r > 0 && Shape(code, r, m) && p <= 1 && marks !! TailSet(code, 6 * r + 2)
    ensures var e := 6 * r + 2;
            var x, t := Work(code, TEXT, p, marks, l, [e]), TailSeen(code, e);
            && |x.list| == |l| + |t.list| && x.marked * TailSet(code, e) == t.marked * TailSet(code, e)
            && marks <= x.marked <= marks + TailSet(code, e)
  {
    hide Shape, Work, Now;
    var e := 6 * r + 2;
    var kin := TailSet(code, e);
    forall v | v in kin
      ensures v < |code| && Now(code, TEXT, p, v) == Now(code, TEXT, 0, v)
              && forall x :: x in Now(code, TEXT, p, v) ==> x in kin {
      TailShut(code, r, m, v);
    }
    TailFirst(code, r, m);
    assert marks * kin == {} == {} * kin;
    WorkBeside(code, TEXT, p, 0, kin, marks, l, {}, [], [e]);
    WorkClosed(code, TEXT, p, marks, l, [e]);
  }

  lemma TailFirst(code: Code, r: nat, m: nat)
    requires r > 0 && Shape(code, r, m)
    ensures 6 * r + 2 in TailSet(code, 6 * r + 2)
  {
    hide Pairs;
  }

  /* One pair of arms after the other. */

  /** The pairs from `b` on are next on the list, and the tail is marked for this list or
      not at all. */
  ghost predicate Pending(code: Code, b: nat, r: nat, e: nat, w: Walk)
    requires r > 0
  {
    && Pairs(code, b, r, e) && w.k + 2 * r <= |w.list| && w.list[w.k..w.k + 2 * r] == Entries(b, r)
    && Between(code, b, e, w)
  }

  ghost predicate Between(code: Code, b: nat, e: nat, w: Walk) {
    && w.here !! w.there && JumpsFree(code, b, e, w.here) && JumpsFree(code, b, e, w.there)
    && (w.here * TailSet(code, e) == {} || w.here * TailSet(code, e) == TailSeen(code, e).marked * TailSet(code, e))
    && w.there !! TailSet(code, e)
  }

  /** In between the two arms the tail is marked for the next list. */
  ghost predicate Within(code: Code, b: nat, e: nat, w: Walk) {
    && w.here !! w.there && JumpsFree(code, b + 3, e, w.here) && JumpsFree(code, b + 3, e, w.there)
    && w.there * TailSet(code, e) == TailSeen(code, e).marked * TailSet(code, e)
    && w.here !! TailSet(code, e)
  }

  /** Through a jump, or at once, to the tail. */
  lemma ToTail(code: Code, r: nat, m: nat, p: nat, marks: set<nat>, l: seq<nat>, j: nat)
    requires r > 0 && Shape(code, r, m) && p <= 1 && marks !! TailSet(code, 6 * r + 2)
    requires var e := 6 * r + 2; j == e || (j < e && code[j] == Jmp(e) && j !in marks)
    ensures var e := 6 * r + 2;
            var x, t := Work(code, TEXT, p, marks, l, [j]), TailSeen(code, e);
            && |x.list| == |l| + |t.list| && x.marked * TailSet(code, e) == t.marked * TailSet(code, e)
            && marks <= x.marked <= marks + {j} + TailSet(code, e)
  {
    hide Work, TailSeen, Pairs, Quests;
    var e := 6 * r + 2;
    if j == e {
      TailAgain(code, r, m, p, marks, l);
    } else {
      Alone(j);
      Alone(e);
      HopOn(code, TEXT, p, marks, l, j, e, []);
      TailAgain(code, r, m, p, marks + {j}, l);
    }
  }

  lemma TakenBack(marks: set<nat>, marked: set<nat>, kin: set<nat>)
    requires marks * kin == {} || marks * kin == marked * kin
    ensures marks - marked !! kin
  {
    assert forall v :: v in marks && v in kin && v !in marked ==> v in marks * kin && v !in marked * kin;
  }

  /** The arm a. */
  lemma ArmRun(code: Code, r: nat, m: nat, b: nat, q: nat, w: Walk) returns (w': Walk)
    requires r > 0 && q > 0 && Shape(code, r, m) && Pairs(code, b, q, 6 * r + 2) && Between(code, b, 6 * r + 2, w)
    requires w.k < |w.list| && w.list[w.k] == b + 1
    ensures RunOne(code, TEXT, 0, w) == AheadMachine.Some(w') && Within(code, b, 6 * r + 2, w')
    ensures w'.k == w.k + 1 && w'.list == w.list
  {
    hide Work, TailSeen, TailSet, Shape;
    var e := 6 * r + 2;
    PairsEnd(code, b, q, e);
    ToTail(code, r, m, 1, w.there, w.next, b + 2);
    var x := Work(code, TEXT, 1, w.there, w.next, [b + 2]);
    w' := Walk(w.here - x.marked, x.marked, w.list, x.list, w.k + 1);
    TailFrom(code, e);
    TakenBack(w.here, x.marked, TailSet(code, e));
  }

  lemma TailFrom(code: Code, e: nat)
    ensures forall x :: x in TailSet(code, e) ==> x >= e
  {
  }

  /** The arm \b. */
  lemma BoundaryRun(code: Code, r: nat, m: nat, b: nat, q: nat, w: Walk) returns (w': Walk)
    requires r > 0 && q > 0 && Shape(code, r, m) && Pairs(code, b, q, 6 * r + 2) && Within(code, b, 6 * r + 2, w)
    requires w.k < |w.list| && w.list[w.k] == Second(b, q)
    ensures RunOne(code, TEXT, 0, w) == AheadMachine.Some(w') && Between(code, b + 6, 6 * r + 2, w')
    ensures w'.k == w.k + 1 && w.list <= w'.list && |w'.list| == |w.list| + |TailSeen(code, 6 * r + 2).list|
  {
    hide Work, TailSeen, TailSet, Shape;
    var e := 6 * r + 2;
    PairsEnd(code, b, q, e);
    var j := Second(b, q) + 1;
    ToTail(code, r, m, 0, w.here, w.list, j);
    var x := Work(code, TEXT, 0, w.here, w.list, [j]);
    w' := Walk(x.marked, w.there - x.marked, x.list, w.next, w.k + 1);
    WorkClosed(code, TEXT, 0, w.here, w.list, [j]);
    TailFrom(code, e);
    TakenBack(w.there, x.marked, TailSet(code, e));
  }

  lemma EntriesHead(b: nat, r: nat, list: seq<nat>, k: nat)
    requires r > 0 && k + 2 * r <= |list| && list[k..k + 2 * r] == Entries(b, r)
    ensures list[k] == b + 1 && list[k + 1] == Second(b, r)
    ensures r > 1 ==> list[k + 2..k + 2 * r] == Entries(b + 6, r - 1)
  {
    var l := list[k..k + 2 * r];
    assert l[0] == list[k] && l[1] == list[k + 1];
    assert l[2..] == list[k + 2..k + 2 * r];
  }

  /** Every pair puts the whole tail onto the list once more. */
  lemma {:induction false} PairsRun(code: Code, r: nat, m: nat, b: nat, q: nat, w: Walk, fuel: nat) returns (w': Walk)
    requires r > 0 && q > 0 && Shape(code, r, m) && Pending(code, b, q, 6 * r + 2, w)
    ensures Go(code, TEXT, 0, w, fuel + 2 * q) == Go(code, TEXT, 0, w', fuel)
    ensures w'.k == w.k + 2 * q && |w'.list| == |w.list| + q * |TailSeen(code, 6 * r + 2).list|
    decreases q
  {
    hide Go, RunOne, Shape, Between, Within, TailSeen, Entries, Pairs;
    var e := 6 * r + 2;
    EntriesHead(b, q, w.list, w.k);
    var w1 := ArmRun(code, r, m, b, q, w);
    var w2 := BoundaryRun(code, r, m, b, q, w1);
    GoOn(code, TEXT, 0, w, fuel + 2 * q);
    GoOn(code, TEXT, 0, w1, fuel + 2 * q - 1);
    if q == 1 {
      w' := w2;
    } else {
      PairsRest(code, b, q, e);
      assert w2.list[w2.k..w2.k + 2 * (q - 1)] == w.list[w.k + 2..w.k + 2 * q];
      w' := PairsRun(code, r, m, b + 6, q - 1, w2, fuel);
      Scaled(q - 1, |TailSeen(code, e).list|);
    }
  }

  lemma PairsRest(code: Code, b: nat, q: nat, e: nat)
    requires q > 1 && Pairs(code, b, q, e)
    ensures Pairs(code, b + 6, q - 1, e)
  {
  }

  /** After the arms have been run the list holds so many entries, whatever the length of
      the program; and still the search ends. */
  lemma ListLength(code: Code, r: nat, m: nat)
    requires r > 0 && ProgramOf(code, Branches(r, m))
    ensures |code| == 6 * r + 2 * m + 5
    ensures var x := SearchAhead(code, TEXT, 2 * r);
            x.Open? && x.p == 0 && |x.walk.list| == 2 * r + 1 + r * (m + 1)
    ensures Ends(code, TEXT)
  {
    hide ProgramOf, Pairs, Quests, Go, Start, TailSeen, Ends, Branches, Between;
    var e, w := 6 * r + 2, Start(code, TEXT);
    ProgramShape(code, r, m);
    StartList(code, r, m);
    StartBetween(code, r, m, w);
    TailCount(code, r, m);
    assert w.list[0..2 * r] == Entries(4, r);
    var w' := PairsRun(code, r, m, 4, r, w, 0);
    GoOn(code, TEXT, 0, w', 0);
    NoLoops(r, m);
    ProperEnds(code, Branches(r, m), TEXT);
  }

  lemma StartBetween(code: Code, r: nat, m: nat, w: Walk)
    requires r > 0 && w.there == {} && JumpsFree(code, 4, 6 * r + 2, w.here) && forall x :: x in w.here ==>
             x < 6 * r + 2
    ensures Between(code, 4, 6 * r + 2, w)
  {
    hide TailSeen;
  }

  lemma {:induction false} ArmsProper(r: nat)
    requires r > 0
    ensures ProperLoops(Arms(r))
    decreases r
  {
    if r > 1 { ArmsProper(r - 1); }
  }

  lemma {:induction false} TailProper(m: nat)
    ensures ProperLoops(Tail(m))
    decreases m
  {
    if m > 0 { TailProper(m - 1); }
  }

  lemma NoLoops(r: nat, m: nat)
    requires r > 0
    ensures ProperLoops(Wrap(Branches(r, m)))
  {
    hide Arms, Tail;
    ArmsProper(r);
    TailProper(m);
    var t := Cat(Arms(r), Tail(m));
    assert ProperLoops(t) && ProperLoops(Paren(0, t)) && ProperLoops(Star(Dot, false));
    assert Wrap(Branches(r, m)) == Cat(Star(Dot, false), Toplevel(Paren(0, t), 0));
  }

  /** It does not fit into an array of program length if there are enough arms, and enough
      behind them: four pairs and nine d?, for instance. */
  lemma DoesNotFit(code: Code, r: nat, m: nat)
    requires r > 0 && ProgramOf(code, Branches(r, m))
    ensures var x := SearchAhead(code, TEXT, 2 * r);
            x.Open? && (|x.walk.list| > |code| <==> r * m > 3 * r + 2 * m + 4)
  {
    hide *;
    ListLength(code, r, m);
    Spread(r, m);
  }

  lemma Spread(r: nat, m: nat)
    ensures r * (m + 1) == r * m + r
  {
  }
}
