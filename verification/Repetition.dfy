/** Counted repetition re{from,to} is not an instruction: the parser writes it out
    (src/sregex/sre_yyparser.c:3561-3634). */
module Repetition {
  import opened Regexes
  import opened Compiler

  /** `n` copies one after the other. */
  function Copies(subj: Regex, n: nat): Regex
    requires n > 0
  {
    if n == 1 then subj else Cat(Copies(subj, n - 1), subj)
  }

  /** The mandatory copies. */
  function Mandatory(subj: Regex, from: nat): Regex {
    if from == 0 then Nil else Copies(subj, from)
  }

  /** `concat` followed by `n` copies of `quest`. */
  function Followed(concat: Regex, quest: Regex, n: nat): Regex {
    if n == 0 then concat else Cat(Followed(concat, quest, n - 1), quest)
  }

  /** The tree for subj{from,to}; `to` is -1 when there is no upper bound. */
  function Counted(subj: Regex, from: nat, to: int, greedy: bool): Regex {
    var concat := Mandatory(subj, from);
    if to == -1 then Cat(concat, Star(subj, greedy))
    else if to <= from then concat
    else Followed(concat, Quest(subj, greedy), to - from)
  }

  method Desugar(subj: Regex, from: nat, to: int, greedy: bool) returns (re: Regex)
    ensures re == Counted(subj, from, to, greedy)
  {
    if from == 1 && to == 1 { return subj; }
    var i := 0;
    if from == 0 {
      re := Nil;
    } else {
      re := subj;
      i := 1;
      while i < from
        invariant 1 <= i <= from && re == Copies(subj, i)
      {
        re := Cat(re, subj);
        i := i + 1;
      }
    }
    if from == to { return; }
    if to == -1 { return Cat(re, Star(subj, greedy)); }
    var quest := Quest(subj, greedy);
    ghost var concat := re;
    while i < to
      invariant from <= i && (i <= to || i == from) && re == Followed(concat, quest, i - from)
    {
      re := Cat(re, quest);
      i := i + 1;
    }
  }

  lemma {:induction false} RepeatsLast(re: Regex, s: seq<Byte>, i: nat, j: nat, n: nat) returns (k: nat)
    requires n > 0 && Repeats(re, s, i, j, n)
    ensures Repeats(re, s, i, k, n - 1) && Matches(re, s, k, j)
    decreases n
  {
    var h: nat :| Matches(re, s, i, h) && Repeats(re, s, h, j, n - 1);
    if n == 1 {
      k := i;
    } else {
      k := RepeatsLast(re, s, h, j, n - 1);
    }
  }

  lemma RepeatsOneMore(re: Regex, s: seq<Byte>, i: nat, k: nat, j: nat, n: nat)
    requires Repeats(re, s, i, k, n) && Matches(re, s, k, j)
    ensures Repeats(re, s, i, j, n + 1)
  {
    assert Repeats(re, s, j, j, 0);
    RepeatsAppend(re, s, i, k, j, n, 1);
  }

  lemma {:induction false} CopiesMatch(subj: Regex, n: nat, s: seq<Byte>, i: nat, j: nat)
    requires n > 0
    ensures Matches(Copies(subj, n), s, i, j) <==> Repeats(subj, s, i, j, n)
    decreases n
  {
    if n == 1 {
      OnceRepeats(subj, s, i, j);
    } else {
      var front := Copies(subj, n - 1);
      hide Matches, Repeats;
      if Matches(Copies(subj, n), s, i, j) {
        var k := CatParts(front, subj, s, i, j);
        CopiesMatch(subj, n - 1, s, i, k);
        RepeatsOneMore(subj, s, i, k, j, n - 1);
      }
      if Repeats(subj, s, i, j, n) {
        var k := RepeatsLast(subj, s, i, j, n);
        CopiesMatch(subj, n - 1, s, i, k);
        CatWhole(front, subj, s, i, k, j);
      }
    }
  }

  lemma OnceRepeats(re: Regex, s: seq<Byte>, i: nat, j: nat)
    ensures Repeats(re, s, i, j, 1) <==> Matches(re, s, i, j)
  {
    hide Matches;
    if Repeats(re, s, i, j, 1) { var k := RepeatsLast(re, s, i, j, 1); }
    if Matches(re, s, i, j) { RepeatsOneMore(re, s, i, i, j, 0); }
  }

  /** Some match of `concat` and then at most `n` of `subj`. */
  ghost predicate UpToMore(concat: Regex, subj: Regex, n: nat, s: seq<Byte>, i: nat, j: nat) {
    exists p: nat, k: nat :: k <= n && Matches(concat, s, i, p) && Repeats(subj, s, p, j, k)
  }

  lemma {:induction false} FollowedMatches(concat: Regex, subj: Regex, greedy: bool, n: nat, s: seq<Byte>, i: nat,
                                           j: nat)
    ensures Matches(Followed(concat, Quest(subj, greedy), n), s, i, j) <==> UpToMore(concat, subj, n, s, i, j)
    decreases n
  {
    var quest := Quest(subj, greedy);
    if n == 0 {
      assert Repeats(subj, s, j, j, 0);
    } else {
      var front := Followed(concat, quest, n - 1);
      assert Followed(concat, quest, n) == Cat(front, quest);
      hide Matches, Repeats, UpToMore;
      if Matches(Cat(front, quest), s, i, j) {
        var m := CatParts(front, quest, s, i, j);
        FollowedMatches(concat, subj, greedy, n - 1, s, i, m);
        OneMore(concat, subj, greedy, n, s, i, m, j);
      }
      if UpToMore(concat, subj, n, s, i, j) {
        var m := OneLess(concat, subj, greedy, n, s, i, j);
        FollowedMatches(concat, subj, greedy, n - 1, s, i, m);
        CatWhole(front, quest, s, i, m, j);
      }
    }
  }

  lemma CatParts(l: Regex, r: Regex, s: seq<Byte>, i: nat, j: nat) returns (m: nat)
    requires Matches(Cat(l, r), s, i, j)
    ensures Matches(l, s, i, m) && Matches(r, s, m, j)
  {
    m :| Matches(l, s, i, m) && Matches(r, s, m, j);
  }

  lemma CatWhole(l: Regex, r: Regex, s: seq<Byte>, i: nat, m: nat, j: nat)
    requires Matches(l, s, i, m) && Matches(r, s, m, j)
    ensures Matches(Cat(l, r), s, i, j)
  {
  }

  lemma OneMore(concat: Regex, subj: Regex, greedy: bool, n: nat, s: seq<Byte>, i: nat, m: nat, j: nat)
    requires n > 0 && UpToMore(concat, subj, n - 1, s, i, m) && Matches(Quest(subj, greedy), s, m, j)
    ensures UpToMore(concat, subj, n, s, i, j)
  {
    QuestMatches(subj, greedy, s, m, j);
    hide Matches, Repeats;
    var p: nat, k: nat :| k <= n - 1 && Matches(concat, s, i, p) && Repeats(subj, s, p, m, k);
    if m != j { RepeatsOneMore(subj, s, p, m, j, k); }
  }

  lemma OneLess(concat: Regex, subj: Regex, greedy: bool, n: nat, s: seq<Byte>, i: nat, j: nat) returns (m: nat)
    requires n > 0 && UpToMore(concat, subj, n, s, i, j)
    ensures UpToMore(concat, subj, n - 1, s, i, m) && Matches(Quest(subj, greedy), s, m, j)
  {
    hide Matches, Repeats;
    var p: nat, k: nat :| k <= n && Matches(concat, s, i, p) && Repeats(subj, s, p, j, k);
    m := j;
    if k == n {
      m := RepeatsLast(subj, s, p, j, k);
    }
    QuestMatches(subj, greedy, s, m, j);
  }

  /** The number of copies is within the bounds; when `to` is below `from` it has
      no effect. */
  predicate InBounds(from: nat, to: int, k: nat) {
    from <= k && (to == -1 || k <= to || k == from)
  }

  lemma MandatoryMatches(subj: Regex, from: nat, s: seq<Byte>, i: nat, p: nat)
    ensures Matches(Mandatory(subj, from), s, i, p) <==> Repeats(subj, s, i, p, from)
  {
    if from > 0 { CopiesMatch(subj, from, s, i, p); }
  }

  /** The matches of the tree end with some number of optional copies. */
  lemma CountedParts(subj: Regex, from: nat, to: int, greedy: bool, s: seq<Byte>, i: nat, j: nat)
      returns (p: nat, k: nat)
    requires Matches(Counted(subj, from, to, greedy), s, i, j)
    ensures Repeats(subj, s, i, p, from) && Repeats(subj, s, p, j, k) && InBounds(from, to, from + k)
  {
    var concat := Mandatory(subj, from);
    p, k := j, 0;
    assert Repeats(subj, s, j, j, 0);
    hide Matches, Repeats, Copies;
    if to == -1 {
      p := CatParts(concat, Star(subj, greedy), s, i, j);
      k := StarParts(subj, greedy, s, p, j);
    } else if to > from {
      FollowedMatches(concat, subj, greedy, to - from, s, i, j);
      p, k :| k <= to - from && Matches(concat, s, i, p) && Repeats(subj, s, p, j, k);
    }
    MandatoryMatches(subj, from, s, i, p);
  }

  lemma CountedWhole(subj: Regex, from: nat, to: int, greedy: bool, s: seq<Byte>, i: nat, p: nat, j: nat, k: nat)
    requires Repeats(subj, s, i, p, from) && Repeats(subj, s, p, j, k) && InBounds(from, to, from + k)
    ensures Matches(Counted(subj, from, to, greedy), s, i, j)
  {
    var concat := Mandatory(subj, from);
    assert k == 0 ==> p == j;
    hide Matches, Repeats, Copies;
    MandatoryMatches(subj, from, s, i, p);
    if to == -1 {
      StarWhole(subj, greedy, s, p, j, k);
      CatWhole(concat, Star(subj, greedy), s, i, p, j);
    } else if to > from {
      assert UpToMore(concat, subj, to - from, s, i, j);
      FollowedMatches(concat, subj, greedy, to - from, s, i, j);
    }
  }

  /** The theorem: the tree matches exactly the concatenations of k matches of the
      subject for the k in the bounds. */
  lemma CountedMatches(subj: Regex, from: nat, to: int, greedy: bool, s: seq<Byte>, i: nat, j: nat)
    ensures Matches(Counted(subj, from, to, greedy), s, i, j)
            <==> exists k: nat :: InBounds(from, to, k) && Repeats(subj, s, i, j, k)
  {
    hide Matches, Repeats, Counted;
    if Matches(Counted(subj, from, to, greedy), s, i, j) {
      var p, k := CountedParts(subj, from, to, greedy, s, i, j);
      RepeatsAppend(subj, s, i, p, j, from, k);
    }
    if k: nat :| InBounds(from, to, k) && Repeats(subj, s, i, j, k) {
      var p := SplitRepeats(subj, s, i, j, from, k - from);
      CountedWhole(subj, from, to, greedy, s, i, p, j, k - from);
    }
  }

  lemma StarParts(r: Regex, greedy: bool, s: seq<Byte>, p: nat, j: nat) returns (n: nat)
    requires Matches(Star(r, greedy), s, p, j)
    ensures Repeats(r, s, p, j, n)
  {
    n :| Repeats(r, s, p, j, n);
  }

  lemma StarWhole(r: Regex, greedy: bool, s: seq<Byte>, p: nat, j: nat, n: nat)
    requires Repeats(r, s, p, j, n)
    ensures Matches(Star(r, greedy), s, p, j)
  {
  }

  lemma {:induction false} SplitRepeats(re: Regex, s: seq<Byte>, i: nat, j: nat, m: nat, n: nat) returns (p: nat)
    requires Repeats(re, s, i, j, m + n)
    ensures Repeats(re, s, i, p, m) && Repeats(re, s, p, j, n)
    decreases m
  {
    if m == 0 {
      p := i;
    } else {
      var h: nat :| Matches(re, s, i, h) && Repeats(re, s, h, j, m + n - 1);
      p := SplitRepeats(re, s, h, j, m - 1, n);
    }
  }

  /** The compiled length in closed form. */
  lemma CountedLength(subj: Regex, from: nat, to: int, greedy: bool)
    ensures ProgramLen(Counted(subj, from, to, greedy)) == from * ProgramLen(subj) +
              if to == -1 then ProgramLen(subj) + 2 else if to <= from then 0 else (to - from) * (ProgramLen(subj) + 1)
  {
    hide ProgramLen, Copies, Followed;
    MandatoryLength(subj, from);
    NodeLengths(Mandatory(subj, from), subj, greedy);
    if to > from { FollowedLength(Mandatory(subj, from), Quest(subj, greedy), to - from); }
  }

  lemma MandatoryLength(subj: Regex, from: nat)
    ensures ProgramLen(Mandatory(subj, from)) == from * ProgramLen(subj)
  {
    if from > 0 { CopiesLength(subj, from); }
  }

  lemma NodeLengths(concat: Regex, subj: Regex, greedy: bool)
    ensures ProgramLen(Cat(concat, Star(subj, greedy))) == ProgramLen(concat) + ProgramLen(subj) + 2
    ensures ProgramLen(Quest(subj, greedy)) == ProgramLen(subj) + 1
  {
  }

  lemma {:induction false} CopiesLength(subj: Regex, n: nat)
    requires n > 0
    ensures ProgramLen(Copies(subj, n)) == n * ProgramLen(subj)
    decreases n
  {
    if n > 1 {
      CopiesLength(subj, n - 1);
      Times(n - 1, ProgramLen(subj));
    }
  }

  lemma {:induction false} FollowedLength(concat: Regex, quest: Regex, n: nat)
    ensures ProgramLen(Followed(concat, quest, n)) == ProgramLen(concat) + n * ProgramLen(quest)
    decreases n
  {
    if n > 0 {
      FollowedLength(concat, quest, n - 1);
      Times(n - 1, ProgramLen(quest));
    }
  }

  lemma Times(n: nat, m: nat)
    ensures (n + 1) * m == n * m + m
  {
  }
}
