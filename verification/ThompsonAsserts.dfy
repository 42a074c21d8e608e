/** The Thompson VM with look-ahead assertions as it mutates
    (src/sregex/sre_vm_thompson.c:63-345): tags, lists and the two tags in use at a
    position, against AheadMachine.  Lists grow as long as they have to. */
module ThompsonAsserts {
  import opened Regexes
  import opened Bytecode
  import opened Programs
  import opened Finite
  import opened Thompson
  import opened ThompsonMatching
  import opened AheadMachine
  import opened AheadFits

  /** An entry of a thread list. */
  datatype Thread = Thread(pc: nat, seenWord: bool)

  class GrowingList {
    var threads: seq<Thread>

    constructor ()
      ensures threads == []
    {
      threads := [];
    }
  }

  /** A word boundary remembers the byte before it. */
  ghost predicate Knows(code: Code, s: seq<Byte>, p: nat, t: Thread) {
    && Live(code, t.pc)
    && (code[t.pc].Look? && (code[t.pc].assertion.SmallB? || code[t.pc].assertion.BigB?) ==>
        t.seenWord == WordBefore(s, p))
  }

  /** The list holds threads at these instructions. */
  ghost predicate Shows(code: Code, s: seq<Byte>, p: nat, threads: seq<Thread>, list: seq<nat>) {
    |threads| == |list| && forall i :: 0 <= i < |list| ==> threads[i].pc == list[i] && Knows(code, s, p, threads[i])
  }

  lemma ShowsMore(code: Code, s: seq<Byte>, p: nat, threads: seq<Thread>, list: seq<nat>, t: Thread)
    requires Shows(code, s, p, threads, list) && Knows(code, s, p, t)
    ensures Shows(code, s, p, threads + [t], list + [t.pc])
  {
    hide Knows;
  }

  /** Where an instruction leads at once is live. */
  lemma NowLive(code: Code, s: seq<Byte>, p: nat, pc: nat)
    requires WellTargeted(code) && Live(code, pc)
    ensures pc < |code| && forall w :: w in Now(code, s, p, pc) ==> Live(code, w)
  {
    hide Live;
    LiveInside(code, pc);
    forall w | w in Now(code, s, p, pc) ensures Live(code, w) { assert Target(code[pc], pc, w); }
  }

  lemma BehindLive(code: Code, pc: nat)
    requires WellTargeted(code) && Live(code, pc) && pc < |code| && (code[pc].Consuming() || code[pc].Look?)
    ensures Live(code, pc + 1)
  {
    hide Live;
    assert Target(code[pc], pc, pc + 1);
  }

  /** One instruction, to be followed alone. */
  lemma WorkOne(code: Code, s: seq<Byte>, p: nat, marked: set<nat>, list: seq<nat>, pc: nat)
    requires pc < |code|
    ensures Work(code, s, p, marked, list, [pc]) ==
            if pc in marked then Seen(marked, list)
            else if Waits(code[pc]) then Seen(marked + {pc}, list + [pc])
            else Work(code, s, p, marked + {pc}, list, Now(code, s, p, pc))
  {
    hide Waits, Now;
    assert [pc][1..] == [] && Now(code, s, p, pc) + [] == Now(code, s, p, pc);
  }

  lemma WorkBoth(code: Code, s: seq<Byte>, p: nat, marked: set<nat>, list: seq<nat>, x: nat, y: nat)
    ensures var r := Work(code, s, p, marked, list, [x]);
            Work(code, s, p, marked, list, [x, y]) == Work(code, s, p, r.marked, r.list, [y])
  {
    hide Work;
    WorkTwice(code, s, p, marked, list, [x], [y]);
    assert [x] + [y] == [x, y];
  }

  lemma Behind(a: Assertion, s: seq<Byte>, sp: nat)
    requires !a.LookAhead() && sp <= |s|
    ensures Holds(a, s, sp) <==> sp == 0 || (a.Caret? && s[sp - 1] == NEWLINE)
  {
  }

  /** Follows what can be reached from `pc` without looking at the next byte. */
  method AddLooking(prog: Program, tag: nat, l: GrowingList, pc: nat, s: seq<Byte>, sp: nat, ghost list: seq<nat>)
    requires prog.Shape() && sp <= |s| && Live(prog.code, pc) && Shows(prog.code, s, sp, l.threads, list)
    modifies prog.tags, l
    ensures var r := Work(prog.code, s, sp, old(Stamped(prog.tags[..], tag)), list, [pc]);
            Stamped(prog.tags[..], tag) == r.marked && Shows(prog.code, s, sp, l.threads, r.list)
    ensures forall k :: 0 <= k < prog.tags.Length ==> prog.tags[k] == old(prog.tags[k]) || prog.tags[k] == tag
    decreases UpTo(|prog.code|) - Stamped(prog.tags[..], tag), 0
  {
    hide Work, Shows, WellTargeted, Live, Stamped, Waits, Now;
    ghost var code, marked := prog.code, Stamped(prog.tags[..], tag);
    LiveInside(code, pc);
    Marking(prog.tags[..], tag, pc);
    WorkOne(code, s, sp, marked, list, pc);
    if prog.tags[pc] == tag {
      return;
    }
    prog.tags[pc] := tag;
    assert prog.tags[..] == old(prog.tags[..])[pc := tag];
    var inst := prog.code[pc];
    IsWaiting(inst);
    if inst.Match? || inst.Char? || inst.Any? || inst.In? || inst.NotIn?
        || (inst.Look? && !inst.assertion.BigA? && !inst.assertion.Caret?) {
      var seenWord := inst.Look? && (inst.assertion.SmallB? || inst.assertion.BigB?) && sp != 0 && IsWord(s[sp - 1]);
      ShowsMore(code, s, sp, l.threads, list, Thread(pc, seenWord));
      l.threads := l.threads + [Thread(pc, seenWord)];
    } else {
      FollowLooking(prog, tag, l, pc, s, sp, list);
    }
  }

  lemma IsWaiting(inst: Inst)
    ensures Waits(inst) <==>
            inst.Match? || inst.Char? || inst.Any? || inst.In? || inst.NotIn?
                || (inst.Look? && !inst.assertion.BigA? && !inst.assertion.Caret?)
  {
  }

  /** The instruction at `pc`, which does not wait, is left behind. */
  method FollowLooking(prog: Program, tag: nat, l: GrowingList, pc: nat, s: seq<Byte>, sp: nat, ghost list: seq<nat>)
    requires prog.Shape() && sp <= |s| && Live(prog.code, pc) && !Waits(prog.code[pc])
             && Shows(prog.code, s, sp, l.threads, list)
    modifies prog.tags, l
    ensures var r := Work(prog.code, s, sp, old(Stamped(prog.tags[..], tag)), list, Now(prog.code, s, sp, pc));
            Stamped(prog.tags[..], tag) == r.marked && Shows(prog.code, s, sp, l.threads, r.list)
    ensures forall k :: 0 <= k < prog.tags.Length ==> prog.tags[k] == old(prog.tags[k]) || prog.tags[k] == tag
    decreases UpTo(|prog.code|) - Stamped(prog.tags[..], tag), 1
  {
    hide Work, Shows, WellTargeted, Live, Stamped;
    ghost var code, marked := prog.code, Stamped(prog.tags[..], tag);
    NowLive(code, s, sp, pc);
    Done(code, s, sp, marked, list);
    match prog.code[pc]
    case Jmp(x) =>
      AddLooking(prog, tag, l, x, s, sp, list);
    case Split(x, y) =>
      WorkBoth(code, s, sp, marked, list, x, y);
      AddLooking(prog, tag, l, x, s, sp, list);
      AddLooking(prog, tag, l, y, s, sp, Work(code, s, sp, marked, list, [x]).list);
    case Save(_) =>
      AddLooking(prog, tag, l, pc + 1, s, sp, list);
    case Look(a) =>
      var holds := if a == BigA then sp == 0 else sp == 0 || s[sp - 1] == NEWLINE;
      Behind(a, s, sp);
      if holds { AddLooking(prog, tag, l, pc + 1, s, sp, list); }
  }

  lemma Unmarked(tags: seq<nat>, tags': seq<nat>, tag: nat, other: nat)
    requires |tags'| == |tags| && tag != other && forall k :: 0 <= k < |tags| ==> tags'[k] == tags[k] || tags'[k] == tag
    ensures Stamped(tags', other) == Stamped(tags, other) - Stamped(tags', tag)
  {
  }

  /** What a thread on the list knows. */
  lemma ThreadKnows(code: Code, s: seq<Byte>, p: nat, threads: seq<Thread>, list: seq<nat>, k: nat)
    requires Shows(code, s, p, threads, list) && k < |threads|
    ensures |threads| == |list| && threads[k].pc == list[k] && list[k] < |code| && Live(code, list[k])
    ensures Knows(code, s, p, threads[k])
  {
    hide Holds;
  }

  lemma TestedRight(code: Code, s: seq<Byte>, p: nat, t: Thread)
    requires Knows(code, s, p, t) && p <= |s| && code[t.pc].Look? && code[t.pc].assertion.LookAhead()
    ensures Holds(code[t.pc].assertion, s, p) <==>
            match code[t.pc].assertion
            case SmallZ => p == |s|
            case Dollar => p == |s| || s[p] == NEWLINE
            case BigB => t.seenWord == (p != |s| && IsWord(s[p]))
            case SmallB => t.seenWord != (p != |s| && IsWord(s[p]))
            case _ => false
  {
  }

  /** A waiting assertion is tested against the byte at `sp`. */
  method Test(a: Assertion, seenWord: bool, s: seq<Byte>, sp: nat) returns (holds: bool)
    requires sp <= |s| && a.LookAhead()
    ensures holds <==>
            match a
            case SmallZ => sp == |s|
            case Dollar => sp == |s| || s[sp] == NEWLINE
            case BigB => seenWord == (sp != |s| && IsWord(s[sp]))
            case SmallB => seenWord != (sp != |s| && IsWord(s[sp]))
            case _ => false
  {
    match a
    case SmallZ => holds := sp == |s|;
    case Dollar => holds := sp == |s| || s[sp] == NEWLINE;
    case BigB => holds := seenWord == (sp != |s| && IsWord(s[sp]));
    case SmallB => holds := seenWord != (sp != |s| && IsWord(s[sp]));
    case _ => holds := false;
  }

  datatype Outcome = Returned(status: Status) | OutOfFuel

  /** A course as a caller sees it. */
  function Told(c: Course): Outcome {
    match c
    case Ended(status) => Returned(status)
    case Open(_, _) => OutOfFuel
  }

  class Context {
    const program: Program
    var tag: nat
    var firstBuf: bool
    var current: GrowingList
    var next: GrowingList

    ghost predicate Fresh()
      reads this, program, program.tags, current, next
    {
      && program.Shape() && program.TagsUpTo(program.tag) && program.tag < tag && firstBuf
      && current != next && current.threads == [] == next.threads
    }

    constructor (program: Program)
      requires program.Valid()
      ensures Fresh() && this.program == program && fresh(current) && fresh(next)
    {
      this.program := program;
      current := new GrowingList();
      next := new GrowingList();
      tag := program.tag + 1;
      firstBuf := true;
    }

    /** The lists and the tags of a position: `tag - 1` marks what was visited for the
        list that is run, `tag` what was visited for the next one. */
    ghost predicate Mirrors(clist: GrowingList, nlist: GrowingList, s: seq<Byte>, sp: nat, w: Walk)
      reads this`tag, program.tags, clist, nlist
    {
      && tag > 0 && program.TagsUpTo(tag)
      && w.here == Stamped(program.tags[..], tag - 1) && w.there == Stamped(program.tags[..], tag)
      && Shows(program.code, s, sp, clist.threads, w.list) && Shows(program.code, s, sp + 1, nlist.threads, w.next)
    }

    /** Thread `k` of the list: at a MATCH the machine stops, a byte that is consumed
        leads on to `nlist`, an assertion that holds leads on to `clist` itself. */
    method RunThread(clist: GrowingList, nlist: GrowingList, k: nat, s: seq<Byte>, sp: nat, ghost w: Walk)
      returns (matched: bool, ghost w': Walk)
      requires program.Shape() && clist != nlist && sp <= |s| && k == w.k < |clist.threads|
      requires Mirrors(clist, nlist, s, sp, w)
      modifies this`tag, program.tags, clist, nlist
      ensures tag == old(tag) && w.k < |w.list|
      ensures matched ==> RunOne(program.code, s, sp, w) == AheadMachine.None
      ensures !matched ==> Mirrors(clist, nlist, s, sp, w') && RunOne(program.code, s, sp, w) == AheadMachine.Some(w')
    {
      hide Work, Shows, WellTargeted, Live, Stamped, Holds, Waits, Knows;
      ghost var code, tags0 := program.code, program.tags[..];
      var t := clist.threads[k];
      ThreadKnows(code, s, sp, clist.threads, w.list, k);
      matched, w' := false, w.(k := k + 1);
      var inst := program.code[t.pc];
      EitherOr(inst);
      if inst.Match? {
        matched := true;
      } else if inst.Look? {
        LooksAhead(inst, s, sp, t, code);
        if inst.assertion.LookAhead() {
          TestedRight(code, s, sp, t);
          var holds := Test(inst.assertion, t.seenWord, s, sp);
          if holds {
            BehindLive(code, t.pc);
            ghost var r := Work(code, s, sp, w.here, w.list, [t.pc + 1]);
            tag := tag - 1;
            AddLooking(program, tag, clist, t.pc + 1, s, sp, w.list);
            tag := tag + 1;
            Unmarked(tags0, program.tags[..], tag - 1, tag);
            w' := Walk(r.marked, w.there - r.marked, r.list, w.next, k + 1);
          }
        }
      } else {
        var consumes := Consumes(inst, s, sp);
        if consumes {
          BehindLive(code, t.pc);
          ghost var r := Work(code, s, sp + 1, w.there, w.next, [t.pc + 1]);
          AddLooking(program, tag, nlist, t.pc + 1, s, sp + 1, w.next);
          Unmarked(tags0, program.tags[..], tag, tag - 1);
          w' := Walk(w.here - r.marked, r.marked, w.list, r.list, k + 1);
        }
      }
    }

    /** One position: the list is run until it holds no thread that has not been run,
        or until a MATCH, or until the fuel is used up. */
    method Step(clist: GrowingList, nlist: GrowingList, s: seq<Byte>, sp: nat, fuel: nat, ghost w: Walk)
      returns (matched: bool, left: nat, ghost w': Walk, ended: bool)
      requires program.Shape() && clist != nlist && sp <= |s| && Mirrors(clist, nlist, s, sp, w) && w.k == 0
               && clist.threads != []
      modifies this`tag, program.tags, clist, nlist
      ensures tag == old(tag) && firstBuf == old(firstBuf)
      ensures matched ==> ended && Go(program.code, s, sp, w, fuel) == Ended(OK)
      ensures !matched ==> Mirrors(clist, nlist, s, sp, w') && w'.list != []
                           && Go(program.code, s, sp, w, fuel) == Go(program.code, s, sp, w', left)
      ensures !matched && ended ==> w'.k == |w'.list|
      ensures !ended ==> Go(program.code, s, sp, w, fuel) == Open(sp, w')
    {
      hide Work, Shows, Go, RunOne, Stamped;
      ghost var code := program.code;
      var k := 0;
      left, w', matched := fuel, w, false;
      ShowsLength(code, s, sp, clist.threads, w.list);
      while k < |clist.threads| && left > 0
        invariant 0 <= k == w'.k <= |clist.threads| == |w'.list| && tag == old(tag) && w'.list != []
        invariant Mirrors(clist, nlist, s, sp, w') && Go(code, s, sp, w, fuel) == Go(code, s, sp, w', left)
        decreases left
      {
        ghost var before := w';
        matched, w' := RunThread(clist, nlist, k, s, sp, w');
        GoOn(code, s, sp, before, left);
        left := left - 1;
        if matched { return matched, left, w', true; }
        ListKept(code, s, sp, before);
        ShowsLength(code, s, sp, clist.threads, w'.list);
        k := k + 1;
      }
      matched, ended := false, k == |clist.threads|;
      if !ended { GoOn(code, s, sp, w', left); }
    }

    /** A whole stream in one call. */
    method Exec(s: seq<Byte>, fuel: nat) returns (r: Outcome)
      requires Fresh()
      modifies this, program, program.tags, current, next
      ensures r == Told(SearchAhead(program.code, s, fuel))
      ensures !firstBuf && (r.Returned? ==> program.tag == tag)
    {
      hide Work, Shows, Go, Stamped, Live, WellTargeted;
      ghost var code := program.code;
      firstBuf := false;
      NoneStamped(program.tags[..], tag);
      LiveFirst(code);
      ShowsNothing(code, s, 0);
      AddLooking(program, tag, current, 0, s, 0, []);
      ghost var w := Start(code, s);
      var clist, nlist, sp, left := current, next, 0, fuel;
      while true
        invariant 0 <= sp <= |s| && ((clist == current && nlist == next) || (clist == next && nlist == current))
                  && current != next
        invariant !firstBuf && program.TagsUpTo(tag) && nlist.threads == [] && unchanged(`current) && unchanged(`next)
        invariant w.here == Stamped(program.tags[..], tag) && w.there == {} && w.next == [] && w.k == 0
        invariant Shows(code, s, sp, clist.threads, w.list) && SearchAhead(code, s, fuel) == Go(code, s, sp, w, left)
        decreases |s| - sp
      {
        ShowsLength(code, s, sp, clist.threads, w.list);
        GoOn(code, s, sp, w, left);
        if |clist.threads| == 0 {
          break;
        }
        tag := tag + 1;
        NoneStamped(program.tags[..], tag);
        ShowsNothing(code, s, sp + 1);
        var matched, ended;
        matched, left, w, ended := Step(clist, nlist, s, sp, left, w);
        if !ended { return OutOfFuel; }
        if matched {
          program.tag := tag;
          return Returned(OK);
        }
        GoOn(code, s, sp, w, left);
        clist, nlist := nlist, clist;
        nlist.threads := [];
        if sp == |s| { break; }
        w, sp := Onto(w), sp + 1;
      }
      program.tag := tag;
      current := clist;
      next := nlist;
      r := Returned(DECLINED);
    }
  }

  lemma ShowsLength(code: Code, s: seq<Byte>, p: nat, threads: seq<Thread>, list: seq<nat>)
    requires Shows(code, s, p, threads, list)
    ensures |threads| == |list|
  {
  }

  lemma ShowsNothing(code: Code, s: seq<Byte>, p: nat)
    ensures Shows(code, s, p, [], [])
  {
  }

  lemma LooksAhead(inst: Inst, s: seq<Byte>, p: nat, t: Thread, code: Code)
    requires inst.Look?
    ensures Postponed(inst) <==> inst.assertion.LookAhead()
  {
  }

  lemma ListKept(code: Code, s: seq<Byte>, p: nat, w: Walk)
    requires w.k < |w.list|
    ensures RunOne(code, s, p, w).Some? ==> |RunOne(code, s, p, w).value.list| >= |w.list|
  {
    hide Work;
  }

  /** The search for a set of regexes: an answer that is returned is right, and one is
      returned soon where assertions and bytes are apart, for instance without any
      look-ahead. */
  method SearchLooking(code: Code, ghost bs: seq<Branch>, s: seq<Byte>, fuel: nat) returns (r: Outcome)
    requires ProgramOf(code, bs)
    ensures r == Told(SearchAhead(code, s, fuel))
    ensures r.Returned? ==> r.status == if MatchExists(bs, s) then OK else DECLINED
    ensures (BranchesLookAheadFree(bs) || forall p: nat :: ApartAt(code, s, p)) && fuel >= (|s| + 1) * |code| ==>
            r.Returned?
  {
    hide ProgramOf, AcceptsBefore, MatchExists, BranchesLookAheadFree, WellTargeted, SearchAhead, ApartAt;
    ProgramTargets(code, bs);
    if BranchesLookAheadFree(bs) { FreeSoon(code, bs, s, fuel); }
    if forall p: nat :: ApartAt(code, s, p) { ApartFits(code, s, fuel); }
    SearchRight(code, s, fuel);
    AcceptsIfMatches(code, bs, s);
    var program := new Program(code);
    var ctx := new Context(program);
    r := ctx.Exec(s, fuel);
  }

  lemma FreeSoon(code: Code, bs: seq<Branch>, s: seq<Byte>, fuel: nat)
    requires ProgramOf(code, bs) && BranchesLookAheadFree(bs)
    ensures fuel >= (|s| + 1) * |code| ==> SearchAhead(code, s, fuel).Ended?
  {
    hide ProgramOf, BranchesLookAheadFree, SearchAhead, ApartAt, CodeLookAheadFree;
    ProgramRuns(code, bs);
    forall p: nat ensures ApartAt(code, s, p) { FreeApart(code, s, p); }
    ApartFits(code, s, fuel);
  }
}
