/** The capture windows of a set of regexes: the vector of every thread holds the
    start of its match in the first slot of the window of one regex, and nothing
    outside that window. */
module Windows {
  import opened Regexes
  import opened Bytecode
  import opened Compiler
  import opened Programs

  /** Slots 2 * group up to this one belong to the regex. */
  function WindowEnd(br: Branch): nat {
    2 * (br.group + br.ncaps + 1)
  }

  predicate Outside(br: Branch, slot: nat) {
    slot < 2 * br.group || WindowEnd(br) <= slot
  }

  /** `vec` is what `old'` becomes when only the regex `br`, started at `i`, writes to it. */
  ghost predicate Owned(old': seq<int>, vec: seq<int>, br: Branch, i: nat) {
    && |vec| == |old'|
    && (2 * br.group < |vec| ==> vec[2 * br.group] == i)
    && forall k :: 0 <= k < |vec| && Outside(br, k) ==> vec[k] == old'[k]
  }

  /** Every SAVE of a regex writes inside its window. */
  lemma LeafSaves(code: Code, b: nat, br: Branch, id: nat, pc: nat)
    requires br.WellFormed() && Layout(code, b, Leaf(br, id))
    requires b <= pc < b + ProgramLen(Leaf(br, id)) && code[pc].Save?
    ensures 2 * br.group <= code[pc].group < WindowEnd(br)
    ensures b < pc ==> code[pc].group != 2 * br.group
  {
    hide Layout, ProgramLen, GroupsWithin;
    var body := Paren(br.group, br.tree);
    UnfoldToplevel(code, b, body, id);
    UnfoldParen(code, b, br.group, br.tree);
    if b < pc < b + 1 + ProgramLen(br.tree) {
      LayoutGroups(code, b + 1, br.tree, br.group + 1, br.group + 1 + br.ncaps, pc);
    }
  }

  lemma LeafCloses(code: Code, b: nat, br: Branch, id: nat)
    requires Layout(code, b, Leaf(br, id))
    ensures var e := b + ProgramLen(Leaf(br, id)); b + 1 < e <= |code| && code[b] == Save(2 * br.group)
                                                   && Closed(code, b + 1, e)
  {
    hide Layout, ProgramLen;
    var body := Paren(br.group, br.tree);
    var m, e := b + 1 + ProgramLen(br.tree), b + ProgramLen(Leaf(br, id));
    UnfoldToplevel(code, b, body, id);
    UnfoldParen(code, b, br.group, br.tree);
    LayoutWithin(code, b + 1, br.tree, b + 1, m);
    forall pc | b + 1 <= pc < e ensures StaysIn(code[pc], pc, b + 1, e) {
      if pc < m { assert StaysIn(code[pc], pc, b + 1, m); }
    }
  }

  lemma LeafOwns(code: Code, s: seq<Byte>, b: nat, br: Branch, id: nat, c: Conf, d: Conf, n: nat)
    requires br.WellFormed() && Layout(code, b, Leaf(br, id)) && c.pc == b
    requires Run(code, s, b, b + ProgramLen(Leaf(br, id)), c, d, n) && b <= d.pc < b + ProgramLen(Leaf(br, id))
             && Rests(code, d)
    ensures Owned(c.vec, d.vec, br, c.pos)
  {
    hide Layout, Leaf, ProgramLen, Run, Closed, GroupsWithin, Plain;
    var e := b + ProgramLen(Leaf(br, id));
    LeafCloses(code, b, br, id);
    var c' := FirstSave(code, s, b, e, c, d, n);
    StaysInside(code, s, b, e, b + 1, e, c', d, n - 1);
    RunBounds(code, s, b, e, c, d, n);
    forall pc | b <= pc < e && code[pc].Save?
      ensures 2 * br.group <= code[pc].group < WindowEnd(br) && (b < pc ==> code[pc].group != 2 * br.group)
    {
      LeafSaves(code, b, br, id, pc);
    }
    forall k | 0 <= k < |d.vec| && Outside(br, k) ensures d.vec[k] == c.vec[k] { RunKeeps(code, s, b, e, c, d, n, k); }
    if 2 * br.group < |c.vec| { RunKeeps(code, s, b + 1, e, c', d, n - 1, 2 * br.group); }
  }

  /** Some regex of the set owns what a run through its code has written. */
  lemma {:induction false} ChainOwns(code: Code, s: seq<Byte>, b: nat, bs: seq<Branch>, c: Conf, d: Conf, n: nat)
      returns (id: nat)
    requires |bs| > 0 && AllWellFormed(bs) && Layout(code, b, Chain(bs))
    requires c.pc == b && b <= d.pc < b + ProgramLen(Chain(bs)) && Rests(code, d)
    requires Run(code, s, b, b + ProgramLen(Chain(bs)), c, d, n)
    ensures id < |bs| && Owned(c.vec, d.vec, bs[id], c.pos)
    decreases |bs|
  {
    hide Layout, Run, ProgramLen, Leaf, Owned, Rests;
    var last := |bs| - 1;
    if last == 0 {
      id := 0;
      LeafOwns(code, s, b, bs[0], 0, c, d, n);
    } else {
      var inLeft, c', k := AltRun(code, s, b, Chain(bs[..last]), Leaf(bs[last], last), c, d, n);
      if inLeft {
        id := ChainOwns(code, s, b + 1, bs[..last], c', d, k);
      } else {
        id := last;
        LeafOwns(code, s, c'.pc, bs[last], last, c', d, k);
      }
    }
  }

  /** ... and the MATCH it reaches, if it reaches one, names that regex. */
  lemma {:induction false} MatchOwns(code: Code, s: seq<Byte>, b: nat, bs: seq<Branch>, c: Conf, d: Conf, n: nat)
      returns (id: nat)
    requires |bs| > 0 && AllWellFormed(bs) && Layout(code, b, Chain(bs))
    requires c.pc == b && b <= d.pc < b + ProgramLen(Chain(bs)) && AtMatch(code, d)
    requires Run(code, s, b, b + ProgramLen(Chain(bs)), c, d, n)
    ensures id < |bs| && Owned(c.vec, d.vec, bs[id], c.pos) && code[d.pc] == Match(id)
    decreases |bs|
  {
    hide Layout, Run, ProgramLen, Leaf, Owned, Rests, AtMatch, Matches, Spans;
    MatchRests(code, d);
    var last := |bs| - 1;
    if last == 0 {
      id := 0;
      LeafOwns(code, s, b, bs[0], 0, c, d, n);
      LeafRunMatches(code, s, b, bs[0], 0, c, d, n);
    } else {
      var inLeft, c', k := AltRun(code, s, b, Chain(bs[..last]), Leaf(bs[last], last), c, d, n);
      if inLeft {
        id := MatchOwns(code, s, b + 1, bs[..last], c', d, k);
      } else {
        id := last;
        LeafOwns(code, s, c'.pc, bs[last], last, c', d, k);
        LeafRunMatches(code, s, c'.pc, bs[last], last, c', d, k);
      }
    }
  }

  /* Where the windows lie. */

  /** The number of $0 and numbered groups before regex `k`. */
  function Base(ncaps: seq<nat>, k: nat): nat
    requires k <= |ncaps|
  {
    if k == 0 then 0 else Base(ncaps, k - 1) + ncaps[k - 1] + 1
  }

  /** The groups are numbered through the whole set, as `ncaps` counts them. */
  ghost predicate Numbered(bs: seq<Branch>, ncaps: seq<nat>) {
    |ncaps| == |bs| && forall k :: 0 <= k < |bs| ==> bs[k].ncaps == ncaps[k] && bs[k].group == Base(ncaps, k)
  }

  lemma {:induction false} BaseGrows(ncaps: seq<nat>, j: nat, k: nat)
    requires j < k <= |ncaps|
    ensures Base(ncaps, j) + ncaps[j] + 1 <= Base(ncaps, k)
    decreases k
  {
    if j + 1 < k { BaseGrows(ncaps, j, k - 1); }
  }

  lemma BaseUpTo(ncaps: seq<nat>, j: nat, k: nat)
    requires j <= k <= |ncaps|
    ensures Base(ncaps, j) <= Base(ncaps, k)
  {
    if j < k { BaseGrows(ncaps, j, k); }
  }

  lemma {:induction false} BaseOwner(ncaps: seq<nat>, k: nat, group: nat) returns (j: nat)
    requires k <= |ncaps| && group < Base(ncaps, k)
    ensures j < k && Base(ncaps, j) <= group < Base(ncaps, j) + ncaps[j] + 1
    decreases k
  {
    if Base(ncaps, k - 1) <= group { j := k - 1; } else { j := BaseOwner(ncaps, k - 1, group); }
  }

  /** The windows partition the capture vector. */
  lemma WindowsPartition(bs: seq<Branch>, ncaps: seq<nat>, slot: nat) returns (id: nat)
    requires Numbered(bs, ncaps) && slot < 2 * Base(ncaps, |ncaps|)
    ensures id < |bs| && !Outside(bs[id], slot)
    ensures forall k :: 0 <= k < |bs| && !Outside(bs[k], slot) ==> k == id
  {
    id := BaseOwner(ncaps, |ncaps|, slot / 2);
    forall k | 0 <= k < |bs| && !Outside(bs[k], slot) ensures k == id {
      if k < id { BaseGrows(ncaps, k, id); }
      if id < k { BaseGrows(ncaps, id, k); }
    }
  }

  /** What a match of regex `id` leaves in an ovector of `size` slots: its window of
      the captures, then -1. */
  function Reported(vec: seq<int>, ncaps: seq<nat>, id: nat, size: nat): seq<int>
    requires id < |ncaps| && |vec| >= 2 * Base(ncaps, id + 1) && size >= 2 * (ncaps[id] + 1)
    ensures |Reported(vec, ncaps, id, size)| == size
  {
    vec[2 * Base(ncaps, id)..2 * Base(ncaps, id + 1)] + seq(size - 2 * (ncaps[id] + 1), _ => -1)
  }

  lemma ReportedIs(vec: seq<int>, ncaps: seq<nat>, id: nat, size: nat)
    requires id < |ncaps| && |vec| >= 2 * Base(ncaps, id + 1) && size >= 2 * (ncaps[id] + 1)
    ensures 2 * Base(ncaps, id) + 2 * (ncaps[id] + 1) <= |vec|
    ensures var r, base := Reported(vec, ncaps, id, size), 2 * Base(ncaps, id);
            && (forall k :: 0 <= k < 2 * (ncaps[id] + 1) ==> r[k] == vec[base + k])
            && (forall k :: 2 * (ncaps[id] + 1) <= k < size ==> r[k] == -1)
  {
  }
}
