/** Putting a set of regexes together: `.*?(re0)|(re1)|...`, with the groups
    numbered through the whole set (src/sregex/sre_yyparser.c:3378-3558).

    The grammar itself is a parameter: `parse(i, n)` is what parsing regex `i`
    gives when `n` groups have been numbered before it. */
module Assembly {
  import opened Regexes
  import opened Programs
  import opened Windows

  datatype Parsed =
    | SyntaxError(offset: int)   // where, or -1
    | Empty
    | Tree(re: Regex, ncaps: nat)   // `ncaps` groups numbered now

  /** A parse numbers its groups on from where it starts, and has no Toplevel node. */
  ghost predicate Numbers(parse: (nat, nat) -> Parsed) {
    forall i: nat, n: nat :: parse(i, n).Tree? ==>
      n <= parse(i, n).ncaps && Plain(parse(i, n).re) && GroupsWithin(parse(i, n).re, n + 1, parse(i, n).ncaps + 1)
  }

  datatype Assembled =
    | Rejected(errOffset: int, errRegexId: int)
    | Program(re: Regex, ncaps: seq<nat>, maxNcaps: nat)

  /** The groups numbered before regex `k`: its own $0 is the next. */
  function Before(parse: (nat, nat) -> Parsed, k: nat): (n: nat) {
    if k == 0 then 0
    else
      match parse(k - 1, Before(parse, k - 1))
      case Tree(_, ncaps) => ncaps + 1
      case _ => 0
  }

  /** The set made of the first `k` regexes. */
  function BranchesOf(parse: (nat, nat) -> Parsed, k: nat): (bs: seq<Branch>)
    ensures |bs| == k
  {
    if k == 0 then []
    else
      var n := Before(parse, k - 1);
      BranchesOf(parse, k - 1) + [match parse(k - 1, n)
                                  case Tree(re, ncaps) => Branch(n, if ncaps >= n then ncaps - n else 0, re)
                                  case _ => Branch(n, 0, Nil)]
  }

  /** The first `k` regexes parse. */
  ghost predicate AllParse(parse: (nat, nat) -> Parsed, k: nat) {
    forall i: nat :: i < k ==> parse(i, Before(parse, i)).Tree?
  }

  ghost predicate IsMax(ncaps: seq<nat>, max: nat) {
    |ncaps| > 0 && max in ncaps && forall k :: 0 <= k < |ncaps| ==> ncaps[k] <= max
  }

  lemma {:induction false} BaseMore(ncaps: seq<nat>, n: nat, k: nat)
    requires k <= |ncaps|
    ensures Base(ncaps + [n], k) == Base(ncaps, k)
    decreases k
  {
    if k > 0 { BaseMore(ncaps, n, k - 1); }
  }

  /** One more regex takes the next window. */
  lemma NumberedMore(bs: seq<Branch>, ncaps: seq<nat>, br: Branch)
    requires Numbered(bs, ncaps) && br.group == Base(ncaps, |ncaps|)
    ensures Numbered(bs + [br], ncaps + [br.ncaps])
    ensures Base(ncaps + [br.ncaps], |ncaps| + 1) == br.group + br.ncaps + 1
  {
    hide Base;
    var bs', more := bs + [br], ncaps + [br.ncaps];
    BaseLast(more);
    BaseMore(ncaps, br.ncaps, |ncaps|);
    assert more[|ncaps|] == br.ncaps;
    forall k | 0 <= k < |bs'| ensures bs'[k].ncaps == more[k] && bs'[k].group == Base(more, k) {
      if k < |bs| {
        assert bs'[k] == bs[k] && more[k] == ncaps[k];
        BaseMore(ncaps, br.ncaps, k);
      }
    }
  }

  lemma BaseLast(ncaps: seq<nat>)
    requires |ncaps| > 0
    ensures Base(ncaps, |ncaps|) == Base(ncaps, |ncaps| - 1) + ncaps[|ncaps| - 1] + 1
  {
  }

  lemma NothingAssembled(parse: (nat, nat) -> Parsed)
    ensures Before(parse, 0) == 0 == Base([], 0) && BranchesOf(parse, 0) == [] && Numbered([], [])
  {
  }

  lemma ChainMore(bs: seq<Branch>, br: Branch)
    ensures Chain(bs + [br]) == if bs == [] then Leaf(br, 0) else Alt(Chain(bs), Leaf(br, |bs|))
  {
    assert (bs + [br])[..|bs|] == bs;
  }

  lemma MaxMore(ncaps: seq<nat>, max: nat, n: nat)
    requires ncaps != [] ==> IsMax(ncaps, max)
    ensures IsMax(ncaps + [n], if ncaps == [] || n > max then n else max)
  {
    var more := ncaps + [n];
    if ncaps != [] && n <= max {
      var k :| 0 <= k < |ncaps| && ncaps[k] == max;
      assert more[k] == max;
    } else {
      assert more[|ncaps|] == n;
    }
  }

  lemma ParsedBranch(parse: (nat, nat) -> Parsed, i: nat)
    requires Numbers(parse) && parse(i, Before(parse, i)).Tree?
    ensures var n, p := Before(parse, i), parse(i, Before(parse, i));
            n <= p.ncaps && Branch(n, p.ncaps - n, p.re).WellFormed()
            && BranchesOf(parse, i + 1) == BranchesOf(parse, i) + [Branch(n, p.ncaps - n, p.re)]
            && Before(parse, i + 1) == p.ncaps + 1
  {
    hide Plain, GroupsWithin;
  }

  /** Parses and assembles `nregexes` regexes. */
  method ParseMulti(parse: (nat, nat) -> Parsed, nregexes: int) returns (r: Assembled)
    requires Numbers(parse)
    ensures nregexes <= 0 ==> r == Rejected(-1, -1)
    ensures r.Rejected? && nregexes > 0 ==>
      && 0 <= r.errRegexId < nregexes && AllParse(parse, r.errRegexId)
      && r.errOffset ==
      (match parse(r.errRegexId, Before(parse, r.errRegexId))
           case SyntaxError(offset) => offset
           case Empty => -1
           case Tree(_, _) => -2)
      && !parse(r.errRegexId, Before(parse, r.errRegexId)).Tree?
    ensures r.Program? ==>
      && nregexes > 0 && AllParse(parse, nregexes)
      && var bs := BranchesOf(parse, nregexes);
         r.re == Wrap(bs) && AllWellFormed(bs) && Numbered(bs, r.ncaps) && IsMax(r.ncaps, r.maxNcaps)
  {
    hide Numbers, Base, Numbered, Chain, Before, BranchesOf, IsMax, GroupsWithin, Plain;
    NothingAssembled(parse);
    if nregexes <= 0 { return Rejected(-1, -1); }
    var multi: seq<nat> := [];
    var ncaps: nat, saved: nat, max: nat := 0, 0, 0;
    var chain := Nil;
    var i := 0;
    while i < nregexes
      invariant 0 <= i <= nregexes && AllParse(parse, i) && ncaps == saved == Before(parse, i) && |multi| == i
      invariant ncaps == Base(multi, i) && Numbered(BranchesOf(parse, i), multi) && AllWellFormed(BranchesOf(parse, i))
      invariant i > 0 ==> chain == Chain(BranchesOf(parse, i)) && IsMax(multi, max)
    {
      var group := ncaps;
      match parse(i, ncaps) {
        case SyntaxError(offset) => return Rejected(offset, i);
        case Empty => return Rejected(-1, i);
        case Tree(tree, n) =>
          ParsedBranch(parse, i);
          ghost var bs, br := BranchesOf(parse, i), Branch(group, n - saved, tree);
          ChainMore(bs, br);
          NumberedMore(bs, multi, br);
          MaxMore(multi, max, n - saved);
          var re := Toplevel(Paren(group, tree), i);
          if i == 0 {
            chain := re;
            max := n;
          } else {
            chain := Alt(chain, re);
            if n - saved > max { max := n - saved; }
          }
          multi := multi + [n - saved];
          ncaps := n + 1;
          saved := ncaps;
      }
      i := i + 1;
    }
    r := Program(Cat(Star(Dot, false), chain), multi, max);
  }
}
