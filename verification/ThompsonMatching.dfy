/** End to end: what the Thompson VM answers about a set of regexes, in one call
    or chunk by chunk. */
module ThompsonMatching {
  import opened Regexes
  import opened Bytecode
  import opened Compiler
  import opened Programs
  import opened Thompson
  import opened Chunks

  ghost predicate BranchesLookAheadFree(bs: seq<Branch>) {
    forall k :: 0 <= k < |bs| ==> LookAheadFree(bs[k].tree)
  }

  lemma {:induction false} LayoutLookAheadFree(code: Code, b: nat, re: Regex, pc: nat)
    requires Layout(code, b, re) && LookAheadFree(re)
    requires b <= pc < b + ProgramLen(re) && pc < |code| && code[pc].Look?
    ensures !code[pc].assertion.LookAhead()
    decreases re
  {
    hide Layout, ProgramLen;
    match re
    case Nil => UnfoldNil(code, b);
    case Alt(l, r) =>
      UnfoldAlt(code, b, l, r);
      if pc < b + 1 + ProgramLen(l) { LayoutLookAheadFree(code, b + 1, l, pc); }
      else { LayoutLookAheadFree(code, b + 2 + ProgramLen(l), r, pc); }
    case Cat(l, r) =>
      UnfoldCat(code, b, l, r);
      if pc < b + ProgramLen(l) { LayoutLookAheadFree(code, b, l, pc); }
      else { LayoutLookAheadFree(code, b + ProgramLen(l), r, pc); }
    case Paren(g, r) =>
      UnfoldParen(code, b, g, r);
      LayoutLookAheadFree(code, b + 1, r, pc);
    case Quest(r, greedy) =>
      UnfoldQuest(code, b, r, greedy);
      LayoutLookAheadFree(code, b + 1, r, pc);
    case Star(r, greedy) =>
      UnfoldStar(code, b, r, greedy);
      LayoutLookAheadFree(code, b + 1, r, pc);
    case Plus(r, greedy) =>
      UnfoldPlus(code, b, r, greedy);
      LayoutLookAheadFree(code, b, r, pc);
    case Toplevel(r, id) =>
      UnfoldToplevel(code, b, r, id);
      LayoutLookAheadFree(code, b, r, pc);
    case _ => UnfoldLeaf(code, b, re);
  }

  lemma {:induction false} ChainLookAheadFree(bs: seq<Branch>)
    requires |bs| > 0 && BranchesLookAheadFree(bs)
    ensures LookAheadFree(Chain(bs))
    decreases |bs|
  {
    var last := |bs| - 1;
    if last > 0 { ChainLookAheadFree(bs[..last]); }
  }

  /** What is reached from the start of a program stays inside it. */
  lemma ProgramTargets(code: Code, bs: seq<Branch>)
    requires ProgramOf(code, bs)
    ensures WellTargeted(code)
  {
    hide Layout, ProgramLen;
    ProgramSearches(code, bs);
    forall pc: nat, t: nat | Live(code, pc) && Target(code[pc], pc, t)
      ensures Live(code, t)
    {
      ProgramLive(code, bs, pc, t);
    }
  }

  /** A program of look-ahead-free regexes is one the VM can run. */
  lemma ProgramRuns(code: Code, bs: seq<Branch>)
    requires ProgramOf(code, bs) && BranchesLookAheadFree(bs)
    ensures WellTargeted(code) && CodeLookAheadFree(code)
  {
    hide Layout, ProgramLen;
    ProgramTargets(code, bs);
    ChainLookAheadFree(bs);
    forall pc | 0 <= pc < |code| && code[pc].Look?
      ensures !code[pc].assertion.LookAhead()
    {
      LayoutLookAheadFree(code, 0, Wrap(bs), pc);
    }
  }

  /** Some regex of the set matches some s[i..j]. */
  ghost predicate MatchExists(bs: seq<Branch>, s: seq<Byte>) {
    exists j: nat :: j <= |s| && MatchEnds(bs, s, j)
  }

  lemma AcceptsIfMatches(code: Code, bs: seq<Branch>, s: seq<Byte>)
    requires ProgramOf(code, bs)
    ensures AcceptsBefore(code, s, |s| + 1) <==> MatchExists(bs, s)
  {
    hide ProgramOf, MatchEnds, Accepting;
    forall p: nat | p <= |s|
      ensures Accepting(code, s, p) <==> MatchEnds(bs, s, p)
    {
      ProgramAccepts(code, bs, s, p);
    }
  }

  /** One call with eof set: OK if some i <= j has Matches(re, s, i, j) for a
      regex of the set, DECLINED otherwise. */
  method Search(code: Code, ghost bs: seq<Branch>, s: seq<Byte>) returns (r: Status)
    requires ProgramOf(code, bs) && BranchesLookAheadFree(bs)
    ensures r == if MatchExists(bs, s) then OK else DECLINED
  {
    hide ProgramOf, Accepting, BranchesLookAheadFree, WellTargeted, CodeLookAheadFree, AcceptsBefore;
    ProgramRuns(code, bs);
    var program := new Program(code);
    NothingAccepted(code);
    var ctx := new Context(program);
    r := ctx.Exec(s, true);
    assert [] + s == s;
    AcceptsIfMatches(code, bs, s);
  }

  lemma NothingAccepted(code: Code)
    ensures !AcceptsBefore(code, [], 0)
  {
  }

  lemma AcceptsEarly(code: Code, s: seq<Byte>, t: seq<Byte>)
    requires CodeLookAheadFree(code) && AcceptsBefore(code, s, |s|)
    ensures AcceptsBefore(code, s + t, |s + t| + 1)
  {
    AcceptsPrefix(code, s, t, |s|);
  }

  /** Chunk by chunk, the last call with eof: the caller stops at the first OK.
      Any split of a stream, empty chunks included, ends with the answer that
      one call on the whole stream gives. */
  method SearchChunks(code: Code, ghost bs: seq<Branch>, chunks: seq<seq<Byte>>, last: seq<Byte>) returns (r: Status)
    requires ProgramOf(code, bs) && BranchesLookAheadFree(bs)
    ensures r == if MatchExists(bs, Joined(chunks) + last) then OK else DECLINED
  {
    hide ProgramOf, Accepting, BranchesLookAheadFree, WellTargeted, CodeLookAheadFree, AcceptsBefore, MatchExists,
        Joined, Front, Thompson.Context.Valid;
    ProgramRuns(code, bs);
    var program := new Program(code);
    NothingAccepted(code);
    JoinedNone();
    assert chunks[..0] == [];
    var ctx := new Context(program);
    AcceptsIfMatches(code, bs, Joined(chunks) + last);
    var k := 0;
    while k < |chunks|
      invariant 0 <= k <= |chunks| && ctx.Valid() && ctx.done == Joined(chunks[..k])
      invariant ctx.program == program && program.code == code
      invariant fresh(ctx) && fresh(program) && fresh(program.tags)
      invariant fresh(ctx.current) && fresh(ctx.next) && fresh(ctx.current.threads) && fresh(ctx.next.threads)
    {
      r := ctx.Exec(chunks[k], false);
      k := k + 1;
      JoinedLast(chunks, k);
      if r == OK {
        ghost var rest := JoinedFrom(chunks, k);
        AcceptsEarly(code, ctx.done, rest + last);
        assert ctx.done + (rest + last) == Joined(chunks) + last;
        return;
      }
    }
    assert chunks[..k] == chunks;
    r := ctx.Exec(last, true);
  }
}
