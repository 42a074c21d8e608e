/** The priorities of a counted repetition (src/sregex/sre_yyparser.c:3561-3634), told by
    those of its subject alone: greedy repetition takes one more copy before it stops,
    non-greedy repetition stops before it takes one more. */
module RepetitionOrder {
  import opened Regexes
  import opened Bytecode
  import opened Compiler
  import opened PikeOrder
  import opened Repetition

  /** One copy more, from each end in turn. */
  function Copied(subj: Regex, s: seq<Byte>, ends: seq<End>): (r: seq<End>)
    requires ProperLoops(subj) && EndsWithin(ends, s, 0)
    ensures EndsWithin(r, s, 0)
  {
    if ends == [] then [] else Results(subj, s, ends[0].pos, ends[0].vec) + Copied(subj, s, ends[1..])
  }

  /** One copy more or none, from each end in turn. */
  function Optional(subj: Regex, greedy: bool, s: seq<Byte>, ends: seq<End>): (r: seq<End>)
    requires ProperLoops(subj) && EndsWithin(ends, s, 0)
    ensures EndsWithin(r, s, 0)
  {
    if ends == [] then []
    else
      var more := Results(subj, s, ends[0].pos, ends[0].vec);
      (if greedy then more + [ends[0]] else [ends[0]] + more) + Optional(subj, greedy, s, ends[1..])
  }

  /** As many copies as there are, from each end in turn. */
  function Unlimited(subj: Regex, greedy: bool, s: seq<Byte>, i: nat, ends: seq<End>): (r: seq<End>)
    requires ProperLoops(subj) && !Nullable(subj) && i <= |s| && EndsWithin(ends, s, i)
    ensures EndsWithin(r, s, i)
    decreases |s| - i, 1, |ends|
  {
    if ends == [] then []
    else UnlimitedFrom(subj, greedy, s, ends[0]) + Unlimited(subj, greedy, s, i, ends[1..])
  }

  function UnlimitedFrom(subj: Regex, greedy: bool, s: seq<Byte>, end: End): (r: seq<End>)
    requires ProperLoops(subj) && !Nullable(subj) && end.pos <= |s|
    ensures EndsWithin(r, s, end.pos)
    decreases |s| - end.pos, 0, 0
  {
    var once := Results(subj, s, end.pos, end.vec);
    var more := if end.pos < |s| then Unlimited(subj, greedy, s, end.pos + 1, once) else [];
    if greedy then more + [end] else [end] + more
  }

  function CopiedTimes(subj: Regex, s: seq<Byte>, n: nat, ends: seq<End>): (r: seq<End>)
    requires ProperLoops(subj) && EndsWithin(ends, s, 0)
    ensures EndsWithin(r, s, 0)
  {
    if n == 0 then ends else Copied(subj, s, CopiedTimes(subj, s, n - 1, ends))
  }

  function OptionalTimes(subj: Regex, greedy: bool, s: seq<Byte>, n: nat, ends: seq<End>): (r: seq<End>)
    requires ProperLoops(subj) && EndsWithin(ends, s, 0)
    ensures EndsWithin(r, s, 0)
  {
    if n == 0 then ends else Optional(subj, greedy, s, OptionalTimes(subj, greedy, s, n - 1, ends))
  }

  /* The tree, part by part. */

  lemma {:induction false} ThenCopies(subj: Regex, s: seq<Byte>, i: nat, ends: seq<End>)
    requires ProperLoops(subj) && EndsWithin(ends, s, i)
    ensures Then(subj, s, i, ends) == Copied(subj, s, ends)
    decreases |ends|
  {
    hide Results;
    if ends != [] { ThenCopies(subj, s, i, ends[1..]); }
  }

  lemma {:induction false} ThenOptional(subj: Regex, greedy: bool, s: seq<Byte>, i: nat, ends: seq<End>)
    requires ProperLoops(subj) && EndsWithin(ends, s, i)
    ensures Then(Quest(subj, greedy), s, i, ends) == Optional(subj, greedy, s, ends)
    decreases |ends|
  {
    if ends != [] {
      var end := ends[0];
      assert end == End(end.pos, end.vec);
      QuestResults(subj, greedy, s, end.pos, end.vec);
      hide Results;
      ThenOptional(subj, greedy, s, i, ends[1..]);
    }
  }

  lemma QuestResults(subj: Regex, greedy: bool, s: seq<Byte>, i: nat, vec: seq<int>)
    requires ProperLoops(subj) && i <= |s|
    ensures var more := Results(subj, s, i, vec);
            Results(Quest(subj, greedy), s, i, vec) == if greedy then more + [End(i, vec)] else [End(i, vec)] + more
  {
    hide Results;
    QuestIs(Quest(subj, greedy), s, i, vec);
  }

  lemma QuestIs(re: Regex, s: seq<Byte>, i: nat, vec: seq<int>)
    requires re.Quest? && ProperLoops(re) && i <= |s|
    ensures ProperLoops(re.body)
    ensures var more := Results(re.body, s, i, vec);
            Results(re, s, i, vec) == if re.greedy then more + [End(i, vec)] else [End(i, vec)] + more
  {
    hide Then, Close, Rounds, MoreRounds, EndsWithin, Nullable, LeafInst, Holds, SetCapture;
  }

  lemma StarResults(subj: Regex, greedy: bool, s: seq<Byte>, i: nat, vec: seq<int>)
    requires ProperLoops(subj) && !Nullable(subj) && i <= |s|
    ensures Results(Star(subj, greedy), s, i, vec) == Rounds(subj, greedy, s, i, vec)
  {
  }

  lemma {:induction false} RoundsUnlimited(subj: Regex, greedy: bool, s: seq<Byte>, i: nat, vec: seq<int>)
    requires ProperLoops(subj) && !Nullable(subj) && i <= |s|
    ensures Rounds(subj, greedy, s, i, vec) == UnlimitedFrom(subj, greedy, s, End(i, vec))
    decreases |s| - i, 0, 0
  {
    hide Results;
    var once, next := Results(subj, s, i, vec), i + 1;
    if i < |s| {
      MoreUnlimited(subj, greedy, s, next, once);
    } else {
      if once != [] { EndFits(once, s, next); }
    }
  }

  lemma EndFits(ends: seq<End>, s: seq<Byte>, i: nat)
    requires ends != [] && EndsWithin(ends, s, i)
    ensures i <= |s|
  {
    assert i <= ends[0].pos;
  }

  lemma {:induction false} MoreUnlimited(subj: Regex, greedy: bool, s: seq<Byte>, i: nat, ends: seq<End>)
    requires ProperLoops(subj) && !Nullable(subj) && i <= |s| && EndsWithin(ends, s, i)
    ensures MoreRounds(subj, greedy, s, i, ends) == Unlimited(subj, greedy, s, i, ends)
    decreases |s| - i, 1, |ends|
  {
    hide Rounds, UnlimitedFrom;
    if ends != [] {
      assert ends[0] == End(ends[0].pos, ends[0].vec);
      RoundsUnlimited(subj, greedy, s, ends[0].pos, ends[0].vec);
      MoreUnlimited(subj, greedy, s, i, ends[1..]);
    }
  }

  lemma {:induction false} ThenUnlimited(subj: Regex, greedy: bool, s: seq<Byte>, i: nat, ends: seq<End>)
    requires ProperLoops(subj) && !Nullable(subj) && i <= |s| && EndsWithin(ends, s, i)
    ensures Then(Star(subj, greedy), s, i, ends) == Unlimited(subj, greedy, s, i, ends)
    decreases |ends|
  {
    hide Results, Rounds, UnlimitedFrom;
    if ends != [] {
      assert ends[0] == End(ends[0].pos, ends[0].vec);
      StarResults(subj, greedy, s, ends[0].pos, ends[0].vec);
      RoundsUnlimited(subj, greedy, s, ends[0].pos, ends[0].vec);
      ThenUnlimited(subj, greedy, s, i, ends[1..]);
    }
  }

  lemma CatResults(l: Regex, r: Regex, s: seq<Byte>, i: nat, vec: seq<int>)
    requires ProperLoops(l) && ProperLoops(r) && i <= |s|
    ensures var from := if Nullable(l) then i else i + 1;
            Results(Cat(l, r), s, i, vec) == Then(r, s, from, Results(l, s, i, vec))
  {
  }

  lemma CopiesProper(subj: Regex, n: nat)
    requires ProperLoops(subj) && n > 0
    ensures ProperLoops(Copies(subj, n))
  {
  }

  lemma {:induction false} CopiesOrder(subj: Regex, n: nat, s: seq<Byte>, i: nat, vec: seq<int>)
    requires ProperLoops(subj) && n > 0 && i <= |s|
    ensures ProperLoops(Copies(subj, n))
    ensures Results(Copies(subj, n), s, i, vec) == CopiedTimes(subj, s, n, [End(i, vec)])
    decreases n
  {
    CopiesProper(subj, n);
    hide Results, Then;
    if n == 1 {
      CopiedOne(subj, s, i, vec);
    } else {
      CopiesOrder(subj, n - 1, s, i, vec);
      var front := Copies(subj, n - 1);
      CatResults(front, subj, s, i, vec);
      ThenCopies(subj, s, if Nullable(front) then i else i + 1, Results(front, s, i, vec));
    }
  }

  lemma CopiedOne(subj: Regex, s: seq<Byte>, i: nat, vec: seq<int>)
    requires ProperLoops(subj) && i <= |s|
    ensures CopiedTimes(subj, s, 1, [End(i, vec)]) == Results(subj, s, i, vec)
  {
    hide Results;
    var one := [End(i, vec)];
    assert CopiedTimes(subj, s, 0, one) == one && one[1..] == [] && Copied(subj, s, []) == [];
  }

  lemma {:induction false} FollowedOrder(concat: Regex, subj: Regex, greedy: bool, n: nat, s: seq<Byte>, i: nat,
                                         vec: seq<int>)
    requires ProperLoops(concat) && ProperLoops(subj) && i <= |s|
    ensures var re := Followed(concat, Quest(subj, greedy), n);
            ProperLoops(re) && Results(re, s, i, vec) == OptionalTimes(subj, greedy, s, n, Results(concat, s, i, vec))
    decreases n
  {
    if n > 0 {
      var front := Followed(concat, Quest(subj, greedy), n - 1);
      FollowedOrder(concat, subj, greedy, n - 1, s, i, vec);
      hide Results, Then;
      CatResults(front, Quest(subj, greedy), s, i, vec);
      ThenOptional(subj, greedy, s, if Nullable(front) then i else i + 1, Results(front, s, i, vec));
    }
  }

  /** The mandatory copies. */
  lemma MandatoryOrder(subj: Regex, from: nat, s: seq<Byte>, i: nat, vec: seq<int>)
    requires ProperLoops(subj) && i <= |s|
    ensures ProperLoops(Mandatory(subj, from))
    ensures Results(Mandatory(subj, from), s, i, vec) == CopiedTimes(subj, s, from, [End(i, vec)])
  {
    hide Copies;
    if from > 0 { CopiesOrder(subj, from, s, i, vec); }
  }

  /** With no upper bound: the mandatory copies, and from each way to take them as many
      more as there are. */
  lemma UnboundedOrder(subj: Regex, from: nat, greedy: bool, s: seq<Byte>, i: nat, vec: seq<int>)
    requires ProperLoops(subj) && !Nullable(subj) && i <= |s|
    ensures var re := Counted(subj, from, -1, greedy);
            && ProperLoops(re)
            && EndsWithin(CopiedTimes(subj, s, from, [End(i, vec)]), s, i)
            && Results(re, s, i, vec) == Unlimited(subj, greedy, s, i, CopiedTimes(subj, s, from, [End(i, vec)]))
  {
    hide Results, Then, Mandatory, Unlimited;
    var concat := Mandatory(subj, from);
    MandatoryOrder(subj, from, s, i, vec);
    CatResults(concat, Star(subj, greedy), s, i, vec);
    UnlimitedEither(subj, greedy, s, i, Results(concat, s, i, vec), Nullable(concat));
  }

  lemma UnlimitedEither(subj: Regex, greedy: bool, s: seq<Byte>, i: nat, ends: seq<End>, nullable: bool)
    requires ProperLoops(subj) && !Nullable(subj) && i <= |s| && EndsWithin(ends, s, i)
             && (!nullable ==> EndsWithin(ends, s, i + 1))
    ensures Then(Star(subj, greedy), s, if nullable then i else i + 1, ends) == Unlimited(subj, greedy, s, i, ends)
  {
    if nullable {
      ThenUnlimited(subj, greedy, s, i, ends);
    } else {
      ThenSame(Star(subj, greedy), s, i, i + 1, ends);
      ThenUnlimited(subj, greedy, s, i, ends);
    }
  }

  lemma {:induction false} ThenSame(re: Regex, s: seq<Byte>, i: nat, j: nat, ends: seq<End>)
    requires ProperLoops(re) && EndsWithin(ends, s, i) && EndsWithin(ends, s, j)
    ensures Then(re, s, i, ends) == Then(re, s, j, ends)
    decreases |ends|
  {
    hide Results;
    if ends != [] { ThenSame(re, s, i, j, ends[1..]); }
  }

  /** With an upper bound: the mandatory copies, and then so many times one more or
      none. */
  lemma BoundedOrder(subj: Regex, from: nat, to: nat, greedy: bool, s: seq<Byte>, i: nat, vec: seq<int>)
    requires ProperLoops(subj) && i <= |s|
    ensures var re := Counted(subj, from, to, greedy);
            && ProperLoops(re)
            && Results(re, s, i, vec) ==
               OptionalTimes(subj, greedy, s, if from < to then to - from
                             else 0, CopiedTimes(subj, s, from, [End(i, vec)]))
  {
    hide Results, Then, Mandatory;
    MandatoryOrder(subj, from, s, i, vec);
    if from < to { FollowedOrder(Mandatory(subj, from), subj, greedy, to - from, s, i, vec); }
  }

  /* What the orders are, in one equation each. */

  lemma OptionalIs(subj: Regex, greedy: bool, s: seq<Byte>, end: End, ends: seq<End>)
    requires ProperLoops(subj) && end.pos <= |s| && EndsWithin(ends, s, 0)
    ensures EndsWithin([end] + ends, s, 0)
    ensures var more := Results(subj, s, end.pos, end.vec);
            Optional(subj, greedy, s, [end] + ends) ==
            (if greedy then more + [end] else [end] + more) + Optional(subj, greedy, s, ends)
    ensures Copied(subj, s, [end] + ends) == Results(subj, s, end.pos, end.vec) + Copied(subj, s, ends)
  {
    hide Results;
    assert ([end] + ends)[0] == end && ([end] + ends)[1..] == ends;
  }

  lemma UnlimitedIs(subj: Regex, greedy: bool, s: seq<Byte>, i: nat, end: End, ends: seq<End>)
    requires ProperLoops(subj) && !Nullable(subj) && i <= end.pos <= |s| && EndsWithin(ends, s, i)
    ensures EndsWithin([end] + ends, s, i)
    ensures var once := Results(subj, s, end.pos, end.vec);
            var more := if end.pos < |s| then Unlimited(subj, greedy, s, end.pos + 1, once) else [];
            Unlimited(subj, greedy, s, i, [end] + ends) ==
            (if greedy then more + [end] else [end] + more) + Unlimited(subj, greedy, s, i, ends)
  {
    hide Results;
    assert ([end] + ends)[0] == end && ([end] + ends)[1..] == ends;
  }

  function Ends(ps: seq<nat>): seq<End> {
    seq(|ps|, k requires 0 <= k < |ps| => End(ps[k], []))
  }

  /** "aaaa". */
  const TEXT: seq<Byte> := [97, 97, 97, 97]

  lemma OneA(i: nat)
    requires i <= 4
    ensures Results(Lit(97), TEXT, i, []) == if i < 4 then [End(i + 1, [])] else []
  {
  }

  lemma FirstAs(n: nat)
    requires n <= 2
    ensures CopiedTimes(Lit(97), TEXT, n, [End(0, [])]) == [End(n, [])]
  {
    hide Results;
    if n > 0 {
      FirstAs(n - 1);
      OneA(n - 1);
      assert [End(n - 1, [])][1..] == [];
    }
  }

  /** The ways to go on with a* from `i`. */
  lemma {:induction false} MoreAs(i: nat, greedy: bool)
    requires 2 <= i <= 4
    ensures UnlimitedFrom(Lit(97), greedy, TEXT, End(i, [])) ==
            if i == 4 then Ends([4])
            else if i == 3 then if greedy then Ends([4, 3]) else Ends([3, 4])
            else if greedy then Ends([4, 3, 2]) else Ends([2, 3, 4])
    decreases 4 - i
  {
    hide Results;
    OneA(i);
    if i < 4 {
      MoreAs(i + 1, greedy);
      assert [End(i + 1, [])][1..] == [];
    }
  }

  /** On "aaaa" a{2,} prefers all four, a{2,}? two. */
  lemma TwoOrMore()
    ensures ProperLoops(Counted(Lit(97), 2, -1, true)) && ProperLoops(Counted(Lit(97), 2, -1, false))
    ensures Results(Counted(Lit(97), 2, -1, true), TEXT, 0, []) == Ends([4, 3, 2])
    ensures Results(Counted(Lit(97), 2, -1, false), TEXT, 0, []) == Ends([2, 3, 4])
  {
    hide Results, Counted;
    forall greedy: bool
      ensures ProperLoops(Counted(Lit(97), 2, -1, greedy))
      ensures Results(Counted(Lit(97), 2, -1, greedy), TEXT, 0, []) == if greedy then Ends([4, 3, 2])
              else Ends([2, 3, 4])
    {
      UnboundedOrder(Lit(97), 2, greedy, TEXT, 0, []);
      FirstAs(2);
      MoreAs(2, greedy);
      assert [End(2, [])][1..] == [];
    }
  }

  /** One optional a, then another, from behind the first a. */
  lemma FirstOption(greedy: bool)
    ensures Optional(Lit(97), greedy, TEXT, Ends([1])) == if greedy then Ends([2, 1]) else Ends([1, 2])
  {
    hide Results;
    OneA(1);
    OptionalIs(Lit(97), greedy, TEXT, End(1, []), []);
    assert Ends([1]) == [End(1, [])] + [];
  }

  lemma SecondOption(i: nat, j: nat, greedy: bool)
    requires 1 <= i <= 2 && 1 <= j <= 2
    ensures Optional(Lit(97), greedy, TEXT, Ends([i, j])) ==
            if greedy then Ends([i + 1, i, j + 1, j]) else Ends([i, i + 1, j, j + 1])
  {
    hide Results;
    OneA(i);
    OneA(j);
    var rest := [End(j, [])];
    OptionalIs(Lit(97), greedy, TEXT, End(i, []), rest);
    OptionalIs(Lit(97), greedy, TEXT, End(j, []), []);
    assert Ends([i, j]) == [End(i, [])] + rest && rest == [End(j, [])] + [];
  }

  lemma TwoOptions(greedy: bool)
    ensures OptionalTimes(Lit(97), greedy, TEXT, 2, Ends([1])) == if greedy then Ends([3, 2, 2, 1])
            else Ends([1, 2, 2, 3])
  {
    hide Optional, Ends;
    EndsInside(1, 1);
    EndsInside(2, 1);
    EndsInside(1, 2);
    FirstOption(greedy);
    SecondOption(2, 1, greedy);
    SecondOption(1, 2, greedy);
    assert OptionalTimes(Lit(97), greedy, TEXT, 0, Ends([1])) == Ends([1]);
    assert OptionalTimes(Lit(97), greedy, TEXT, 1, Ends([1])) == Optional(Lit(97), greedy, TEXT, Ends([1]));
  }

  lemma EndsInside(i: nat, j: nat)
    requires i <= 4 && j <= 4
    ensures EndsWithin(Ends([i]), TEXT, 0) && EndsWithin(Ends([i, j]), TEXT, 0)
  {
  }

  /** a{1,3} prefers three, a{1,3}? one; the ways to two are there twice. */
  lemma OneToThree()
    ensures ProperLoops(Counted(Lit(97), 1, 3, true)) && ProperLoops(Counted(Lit(97), 1, 3, false))
    ensures Results(Counted(Lit(97), 1, 3, true), TEXT, 0, []) == Ends([3, 2, 2, 1])
    ensures Results(Counted(Lit(97), 1, 3, false), TEXT, 0, []) == Ends([1, 2, 2, 3])
  {
    hide Results, Counted, OptionalTimes, CopiedTimes;
    BoundedOrder(Lit(97), 1, 3, true, TEXT, 0, []);
    BoundedOrder(Lit(97), 1, 3, false, TEXT, 0, []);
    FirstAs(1);
    TwoOptions(true);
    TwoOptions(false);
    assert Ends([1]) == [End(1, [])];
  }
}
