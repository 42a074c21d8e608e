/** The Pike VM as the code runs it (src/sregex/sre_vm_pike.c): tags as the set of
    visited instructions, thread lists that share reference-counted captures, and
    the loops of one call.  Every method is proved to compute the functions of
    PikeMachine and PikeStream. */
module Pike {
  import opened Regexes
  import opened Bytecode
  import opened Programs
  import opened Finite
  import opened Thompson
  import opened PikeMachine
  import opened LeadingBytes
  import opened PikeStream
  import opened PikeFits
  import opened PikeLost
  import opened PikePriority
  import opened PikeLeftmost
  import opened Windows
  import opened PikePartial
  import opened Captures

  /** What a call returns: a regex id, or one of the codes. */
  datatype Answer = Found(id: nat) | Declined | Again | Failed

  datatype Node = Node(pc: nat, capture: Capture)

  class Threads {
    var nodes: seq<Node>

    constructor ()
      ensures nodes == []
    {
      nodes := [];
    }
  }

  /** The captures the threads of a list hold. */
  ghost function Held(nodes: seq<Node>): multiset<Capture> {
    if nodes == [] then multiset{} else Held(nodes[..|nodes| - 1]) + multiset{nodes[|nodes| - 1].capture}
  }

  lemma HeldPush(nodes: seq<Node>, node: Node)
    ensures Held(nodes + [node]) == Held(nodes) + multiset{node.capture}
  {
    assert (nodes + [node])[..|nodes|] == nodes;
  }

  lemma {:induction false} HeldIn(nodes: seq<Node>, k: nat)
    requires k < |nodes|
    ensures nodes[k].capture in Held(nodes)
    decreases |nodes|
  {
    if k < |nodes| - 1 { HeldIn(nodes[..|nodes| - 1], k); }
  }

  lemma HeldLast(nodes: seq<Node>)
    ensures Held(nodes) == if nodes == [] then multiset{}
            else Held(nodes[..|nodes| - 1]) + multiset{nodes[|nodes| - 1].capture}
  {
  }

  lemma {:induction false} HeldPop(nodes: seq<Node>)
    requires nodes != []
    ensures Held(nodes) == multiset{nodes[0].capture} + Held(nodes[1..])
    decreases |nodes|
  {
    hide Held;
    HeldLast(nodes);
    HeldLast(nodes[1..]);
    if |nodes| == 1 {
      assert nodes[..0] == [] && nodes[1..] == [];
      HeldLast([]);
    } else {
      var front := nodes[..|nodes| - 1];
      HeldPop(front);
      assert front[1..] == nodes[1..][..|nodes| - 2];
    }
  }

  /** The list holds these threads, each with the captures its node points to. */
  ghost predicate Shows(all: set<Capture>, nodes: seq<Node>, threads: seq<Thread>)
    reads all`vector
  {
    && |nodes| == |threads|
    && forall k :: 0 <= k < |nodes| ==> nodes[k].capture in all && nodes[k].pc == threads[k].pc
                                        && nodes[k].capture.vector == threads[k].vec
  }

  /** Every SAVE has its slot. */
  ghost predicate GroupsFit(code: Code, slots: nat) {
    forall pc :: 0 <= pc < |code| && code[pc].Save? ==> code[pc].group < slots
  }

  lemma HeldAny(nodes: seq<Node>, held: multiset<Capture>)
    ensures forall k :: 0 <= k < |nodes| ==> nodes[k].capture in held + Held(nodes)
  {
    forall k | 0 <= k < |nodes| ensures nodes[k].capture in held + Held(nodes) { HeldIn(nodes, k); }
  }

  /** What Add does at an instruction, without its recursion. */
  lemma AddHere(code: Code, at: Place, visited: set<nat>, threads: seq<Thread>, pc: nat, vec: seq<int>, stop: bool)
    requires pc < |code| && CodeLookAheadFree(code)
    ensures var r, seen := Add(code, at, visited, threads, pc, vec, stop), visited + {pc};
            if pc in visited then
              if code[pc].Split? && code[pc].y !in visited
                  then r == Add(code, at, visited, threads, code[pc].y, vec, stop)
              else r == Added(visited, threads, None)
            else
              match code[pc]
              case Jmp(x) => r == Add(code, at, seen, threads, x, vec, stop)
              case Split(x, y) =>
                var l := Add(code, at, seen, threads, x, vec, stop);
                r == if l.hit.Some? then l else Add(code, at, l.visited, l.threads, y, vec, stop)
              case Save(g) => r == Add(code, at, seen, threads, pc + 1, SetCapture(vec, g, at.pos), stop)
              case Look(a) => r == if HoldsAt(a, at) then Add(code, at, seen, threads, pc + 1, vec, stop)
                  else Added(seen, threads, None)
              case Match(id) => r == if stop then Added(seen, threads, Some(Hit(id, vec)))
                  else Added(seen, threads + [Thread(pc, vec)], None)
              case _ => r == Added(seen, threads + [Thread(pc, vec)], None)
  {
  }

  lemma SplitLive(code: Code, pc: nat)
    requires WellTargeted(code) && Live(code, pc) && code[pc].Split?
    ensures Live(code, code[pc].x) && Live(code, code[pc].y) && code[pc].x < |code| && code[pc].y < |code|
  {
    assert Target(code[pc], pc, code[pc].x) && Target(code[pc], pc, code[pc].y);
  }

  lemma TargetIs(inst: Inst, pc: nat)
    ensures inst.Jmp? ==> Target(inst, pc, inst.x)
  {
  }

  lemma NextLive(code: Code, pc: nat)
    requires WellTargeted(code) && Live(code, pc) && (code[pc].Save? || code[pc].Look?)
    ensures Live(code, pc + 1) && pc + 1 < |code|
  {
    assert Target(code[pc], pc, pc + 1);
  }

  lemma LiveTarget(code: Code, pc: nat, t: nat)
    requires WellTargeted(code) && Live(code, pc) && Target(code[pc], pc, t)
    ensures Live(code, t)
  {
  }

  /** The place of offset `pos` in the chunk `buffer` behind `processed` bytes, as
      far as a machine can see it. */
  function Here(processed: nat, buffer: seq<Byte>, pos: nat): Place
    requires pos <= |buffer|
  {
    Place(processed + pos, processed + pos == 0, processed + pos == 0 || (pos > 0 && buffer[pos - 1] == NEWLINE))
  }

  lemma HereIsAt(processed: nat, buffer: seq<Byte>, pos: nat)
    requires pos <= |buffer|
    ensures Here(processed, buffer, pos).pos == processed + pos
  {
  }

  lemma HereHolds(a: Assertion, processed: nat, buffer: seq<Byte>, pos: nat)
    requires pos <= |buffer| && (pos > 0 || processed == 0)
    ensures HoldsAt(a, Here(processed, buffer, pos)) <==>
            if a == BigA then pos == 0 && processed == 0 else pos == 0 || buffer[pos - 1] == NEWLINE
  {
  }

  lemma StartFirst(code: Code, at: Place, visited: set<nat>, threads: seq<Thread>, pc: nat, vec: seq<int>, stop: bool)
    requires pc < |code| && pc !in visited && code[pc].Split?
    ensures pc in Add(code, at, visited, threads, pc, vec, stop).visited
    ensures Add(code, at, visited + {pc}, threads, code[pc].x, vec, stop).visited <=
            Add(code, at, visited, threads, pc, vec, stop).visited
  {
  }

  lemma HereIs(done: seq<Byte>, buffer: seq<Byte>, pos: nat)
    requires pos <= |buffer| && (pos > 0 || done == [])
    ensures Here(|done|, buffer, pos) == PlaceIn(done + buffer, |done| + pos)
  {
  }

  /** The context of a match: `lead` is the program's list of leading bytes. */
  class Context {
    const program: Program
    const lead: Option<seq<nat>>
    const store: Store
    const ncaps: seq<nat>
    const ovector: array<int>
    var tag: nat
    var processed: nat
    var buffer: seq<Byte>
    var seenStart: bool
    var initial: seq<nat>
    var initialCount: nat
    var current: Threads
    var next: Threads
    var matched: Capture?
    var firstBuf: bool
    var ended: bool
    ghost var machine: Machine   // the state as a value
    ghost var done: seq<Byte>    // the stream of the earlier calls

    ghost predicate Shape() {
      && program.Shape() && CodeLookAheadFree(program.code) && Searching(program.code)
      && GroupsFit(program.code, store.slots)
    }

    /** `l` holds `threads`, and the captures of the list and of `m` are counted. */
    ghost predicate Ready(l: Threads, threads: seq<Thread>, m: multiset<Capture>)
      reads l, store, store.all
    {
      store.Valid() && Shows(store.all, l.nodes, threads) && store.Counts(m + Held(l.nodes))
    }

    /** The capture vector holds all windows, the ovector each of them. */
    ghost predicate Roomy() {
      && |ncaps| > 0 && store.slots == 2 * Base(ncaps, |ncaps|)
      && forall i :: 0 <= i < |ncaps| ==> ovector.Length >= 2 * (ncaps[i] + 1)
    }

    ghost predicate LeadWithin() {
      lead.Some? ==> forall k :: 0 <= k < |lead.value| ==> lead.value[k] < |program.code|
    }

    constructor (program: Program, lead: Option<seq<nat>>, ncaps: seq<nat>, ovector: array<int>)
      requires program.Valid() && CodeLookAheadFree(program.code) && Searching(program.code) && |ncaps| > 0
               && GroupsFit(program.code, 2 * Base(ncaps, |ncaps|))
      requires lead.Some? ==> forall k :: 0 <= k < |lead.value| ==> lead.value[k] < |program.code|
      requires forall i :: 0 <= i < |ncaps| ==> ovector.Length >= 2 * (ncaps[i] + 1)
      ensures Valid() && firstBuf && !ended && done == []
      ensures this.program == program && this.lead == lead && this.ncaps == ncaps && this.ovector == ovector
      ensures fresh(store) && fresh(current) && fresh(next) && store.all == {}
    {
      hide Fits, PikeStream.Setup.StartList, GroupsFit, Searching, CodeLookAheadFree, Base;
      this.program, this.lead, this.ncaps, this.ovector := program, lead, ncaps, ovector;
      store := new Store(2 * Base(ncaps, |ncaps|));
      tag, processed, buffer, seenStart, initial, initialCount := 0, 0, [], false, [], 0;
      current := new Threads();
      next := new Threads();
      matched, firstBuf, ended, done := null, true, false, [];
      new;
      machine := Config().Fresh();
      StartFits(Config(), Place(0, true, true));
    }

    /** Between two calls. */
    ghost predicate Valid()
      reads this, program, program.tags, store, store.all, current, next, matched
    {
      && Shape() && Roomy() && LeadWithin() && program.Valid() && current != next && |done| == processed
      && Fits(program.code, machine.list)
      && if firstBuf
         then processed == 0 && matched == null && current.nodes == [] == next.nodes && Ready(next, [], multiset{})
             && machine == Config().Fresh()
         else Knows() && Carries(machine, current, next, matched) && machine.pos == processed
    }

    /** Follows what can be reached from `pc` without consuming; what waits goes on
        the list.  With `stop` set a MATCH ends it and its captures are returned.
        `held` are the captures others hold meanwhile. */
    method AddThread(l: Threads, pc: nat, capture: Capture, pos: nat, stop: bool, ghost threads: seq<Thread>,
                     ghost held: multiset<Capture>)
      returns (matched: bool, out: Capture, ghost r: Added)
      requires Shape() && Live(program.code, pc) && pos <= |buffer| && (pos > 0 || processed == 0)
      requires Ready(l, threads, held + multiset{capture})
      modifies this`seenStart, store, store.all, l, program.tags
      ensures r == Add(program.code, Here(processed, buffer, pos), old(Stamped(program.tags[..], tag)), threads, pc,
                       old(capture.vector), stop)
      ensures Stamped(program.tags[..], tag) == r.visited && matched == r.hit.Some?
      ensures matched ==> out.vector == r.hit.value.vec && out.id == r.hit.value.id
      ensures if matched then Ready(l, r.threads, held + multiset{out}) else Ready(l, r.threads, held)
      ensures forall c :: c in held ==> c.vector == old(c.vector)
      ensures forall c :: c in held && (c != capture || (stop && !matched)) ==> c.id == old(c.id)
      ensures forall k :: 0 <= k < program.tags.Length ==> program.tags[k] == old(program.tags[k])
                                                           || program.tags[k] == tag
      ensures |store.lost| == |old(store.lost)| + Lost(program.code, Here(processed, buffer, pos),
                old(Stamped(program.tags[..], tag)), threads, pc, old(capture.vector), stop)
      ensures old(store.gone) <= store.gone && (!matched ==> store.gone == old(store.gone))
      ensures fresh(store.all - old(store.all)) && old(store.all) <= store.all
      ensures old(seenStart) || (0 in r.visited && 0 !in old(Stamped(program.tags[..], tag))) ==> seenStart
      ensures seenStart ==> old(seenStart) || 0 in r.visited
      decreases UpTo(|program.code|) - Stamped(program.tags[..], tag), if pc in Stamped(program.tags[..], tag) then 1
          else 0
    {
      hide *;
      ShapeParts();
      LiveIs(program.code, pc);
      ghost var code, at, visited, vec := program.code, Here(processed, buffer, pos), Stamped(program.tags[..], tag),
          capture.vector;
      matched, out := false, capture;
      r := Add(code, at, visited, threads, pc, vec, stop);
      AddHere(code, at, visited, threads, pc, vec, stop);
      LostHere(code, at, visited, threads, pc, vec, stop);
      Marking(program.tags[..], tag, pc);
      if program.tags[pc] == tag {
        if program.code[pc].Split? {
          SplitLive(code, pc);
          Marking(program.tags[..], tag, code[pc].y);
          if program.tags[program.code[pc].y] != tag {
            if pc == 0 { seenStart := true; }
            matched, out, r := AddThread(l, program.code[pc].y, capture, pos, stop, threads, held);
            return;
          }
        }
        Lose(l, capture, threads, held);
        return;
      }
      program.tags[pc] := tag;
      assert program.tags[..] == old(program.tags[..])[pc := tag];
      matched, out, r := Follow(l, pc, capture, pos, stop, threads, held, visited);
    }

    /** A newly stamped instruction. */
    method Follow(l: Threads, pc: nat, capture: Capture, pos: nat, stop: bool, ghost threads: seq<Thread>,
                  ghost held: multiset<Capture>,
                  ghost visited: set<nat>)
      returns (matched: bool, out: Capture, ghost r: Added)
      requires Shape() && Live(program.code, pc) && pos <= |buffer| && (pos > 0 || processed == 0)
      requires Ready(l, threads, held + multiset{capture})
      requires pc !in visited && Stamped(program.tags[..], tag) == visited + {pc}
      modifies this`seenStart, store, store.all, l, program.tags
      ensures r == Add(program.code, Here(processed, buffer, pos), visited, threads, pc, old(capture.vector), stop)
      ensures Stamped(program.tags[..], tag) == r.visited && matched == r.hit.Some?
      ensures matched ==> out.vector == r.hit.value.vec && out.id == r.hit.value.id
      ensures if matched then Ready(l, r.threads, held + multiset{out}) else Ready(l, r.threads, held)
      ensures forall c :: c in held ==> c.vector == old(c.vector)
      ensures forall c :: c in held && (c != capture || (stop && !matched)) ==> c.id == old(c.id)
      ensures forall k :: 0 <= k < program.tags.Length ==> program.tags[k] == old(program.tags[k])
                                                           || program.tags[k] == tag
      ensures |store.lost| == |old(store.lost)|
                + Lost(program.code, Here(processed, buffer, pos), visited, threads, pc, old(capture.vector), stop)
      ensures old(store.gone) <= store.gone && (!matched ==> store.gone == old(store.gone))
      ensures fresh(store.all - old(store.all)) && old(store.all) <= store.all
      ensures old(seenStart) || pc == 0 || (0 in r.visited && 0 !in visited) ==> seenStart
      ensures seenStart ==> old(seenStart) || 0 in r.visited
      decreases UpTo(|program.code|) - Stamped(program.tags[..], tag), 4
    {
      hide *;
      ShapeParts();
      LiveIs(program.code, pc);
      ReadyHolds(l, threads, held, capture);
      ghost var code, at, vec := program.code, Here(processed, buffer, pos), capture.vector;
      AddHere(code, at, visited, threads, pc, vec, stop);
      LostHere(code, at, visited, threads, pc, vec, stop);
      matched, out, r := false, capture, Add(code, at, visited, threads, pc, vec, stop);
      var inst := program.code[pc];
      if inst.Split? {
        matched, out, r := FollowSplit(l, pc, capture, pos, stop, threads, held, visited);
      } else if inst.Save? {
        matched, out, r := FollowSave(l, pc, capture, pos, stop, threads, held, visited);
      } else if inst.Jmp? || inst.Look? {
        matched, out, r := FollowOn(l, pc, capture, pos, stop, threads, held, visited);
      } else {
        matched := Wait(l, pc, capture, stop, threads, held);
      }
    }

    method FollowOn(l: Threads, pc: nat, capture: Capture, pos: nat, stop: bool, ghost threads: seq<Thread>,
                    ghost held: multiset<Capture>,
                    ghost visited: set<nat>)
      returns (matched: bool, out: Capture, ghost r: Added)
      requires Shape() && Live(program.code, pc) && (program.code[pc].Jmp? || program.code[pc].Look?)
               && pos <= |buffer| && (pos > 0 || processed == 0)
      requires Ready(l, threads, held + multiset{capture})
      requires pc !in visited && Stamped(program.tags[..], tag) == visited + {pc}
      modifies this`seenStart, store, store.all, l, program.tags
      ensures r == Add(program.code, Here(processed, buffer, pos), visited, threads, pc, old(capture.vector), stop)
      ensures Stamped(program.tags[..], tag) == r.visited && matched == r.hit.Some?
      ensures matched ==> out.vector == r.hit.value.vec && out.id == r.hit.value.id
      ensures if matched then Ready(l, r.threads, held + multiset{out}) else Ready(l, r.threads, held)
      ensures forall c :: c in held ==> c.vector == old(c.vector)
      ensures forall c :: c in held && (c != capture || (stop && !matched)) ==> c.id == old(c.id)
      ensures forall k :: 0 <= k < program.tags.Length ==> program.tags[k] == old(program.tags[k])
                                                           || program.tags[k] == tag
      ensures |store.lost| == |old(store.lost)|
                + Lost(program.code, Here(processed, buffer, pos), visited, threads, pc, old(capture.vector), stop)
      ensures old(store.gone) <= store.gone && (!matched ==> store.gone == old(store.gone))
      ensures fresh(store.all - old(store.all)) && old(store.all) <= store.all
      ensures old(seenStart) || (0 in r.visited && 0 !in visited) ==> seenStart
      ensures seenStart ==> old(seenStart) || 0 in r.visited
      decreases UpTo(|program.code|) - Stamped(program.tags[..], tag), 2
    {
      hide *;
      ShapeParts();
      LiveIs(program.code, pc);
      AddHere(program.code, Here(processed, buffer, pos), visited, threads, pc, capture.vector, stop);
      LostHere(program.code, Here(processed, buffer, pos), visited, threads, pc, capture.vector, stop);
      var inst := program.code[pc];
      if inst.Jmp? {
        LiveTarget(program.code, pc, inst.x) by { TargetIs(inst, pc); }
        matched, out, r := AddThread(l, inst.x, capture, pos, stop, threads, held);
      } else {
        NextLive(program.code, pc);
        HereHolds(inst.assertion, processed, buffer, pos);
        var holds := if inst.assertion == BigA then pos == 0 && processed == 0
            else pos == 0 || buffer[pos - 1] == NEWLINE;
        if holds {
          matched, out, r := AddThread(l, pc + 1, capture, pos, stop, threads, held);
        } else {
          Lose(l, capture, threads, held);
          matched, out, r := false, capture, Added(visited + {pc}, threads, None);
        }
      }
    }

    /** A MATCH ends the search or waits; the others that consume wait. */
    method Wait(l: Threads, pc: nat, capture: Capture, stop: bool, ghost threads: seq<Thread>,
                ghost held: multiset<Capture>) returns (matched: bool)
      requires pc < |program.code| && var inst := program.code[pc]; !inst.Jmp? && !inst.Split? && !inst.Save?
                                                                    && !inst.Look?
      requires Ready(l, threads, held + multiset{capture})
      modifies capture`id, l
      ensures matched == (stop && program.code[pc].Match?)
      ensures if matched then Ready(l, threads, held + multiset{capture})
              else Ready(l, threads + [Thread(pc, capture.vector)], held)
      ensures program.code[pc].Match? ==> capture.id == program.code[pc].id
      ensures !program.code[pc].Match? ==> capture.id == old(capture.id)
    {
      hide *;
      matched := false;
      if program.code[pc].Match? {
        Name(l, capture, program.code[pc].id, threads, held);
        if stop { return true; }
      }
      Push(l, pc, capture, threads, held);
    }

    method FollowSave(l: Threads, pc: nat, capture: Capture, pos: nat, stop: bool, ghost threads: seq<Thread>,
                      ghost held: multiset<Capture>,
                      ghost visited: set<nat>)
      returns (matched: bool, out: Capture, ghost r: Added)
      requires Shape() && Live(program.code, pc) && program.code[pc].Save? && pos <= |buffer|
               && (pos > 0 || processed == 0)
      requires Ready(l, threads, held + multiset{capture})
      requires pc !in visited && Stamped(program.tags[..], tag) == visited + {pc}
      modifies this`seenStart, store, store.all, l, program.tags
      ensures r == Add(program.code, Here(processed, buffer, pos), visited, threads, pc, old(capture.vector), stop)
      ensures Stamped(program.tags[..], tag) == r.visited && matched == r.hit.Some?
      ensures matched ==> out.vector == r.hit.value.vec && out.id == r.hit.value.id
      ensures if matched then Ready(l, r.threads, held + multiset{out}) else Ready(l, r.threads, held)
      ensures forall c :: c in held ==> c.vector == old(c.vector)
      ensures forall c :: c in held && (c != capture || (stop && !matched)) ==> c.id == old(c.id)
      ensures forall k :: 0 <= k < program.tags.Length ==> program.tags[k] == old(program.tags[k])
                                                           || program.tags[k] == tag
      ensures |store.lost| == |old(store.lost)|
                + Lost(program.code, Here(processed, buffer, pos), visited, threads, pc, old(capture.vector), stop)
      ensures old(store.gone) <= store.gone && (!matched ==> store.gone == old(store.gone))
      ensures fresh(store.all - old(store.all)) && old(store.all) <= store.all
      ensures old(seenStart) || (0 in r.visited && 0 !in visited) ==> seenStart
      ensures seenStart ==> old(seenStart) || 0 in r.visited
      decreases UpTo(|program.code|) - Stamped(program.tags[..], tag), 2
    {
      hide *;
      ShapeParts();
      LiveIs(program.code, pc);
      AddHere(program.code, Here(processed, buffer, pos), visited, threads, pc, capture.vector, stop);
      LostHere(program.code, Here(processed, buffer, pos), visited, threads, pc, capture.vector, stop);
      NextLive(program.code, pc);
      HereIsAt(processed, buffer, pos);
      var c := Write(l, capture, program.code[pc].group, processed + pos, threads, held);
      matched, out, r := AddThread(l, pc + 1, c, pos, stop, threads, held);
    }

    /** Both arms of a SPLIT share the captures. */
    method FollowSplit(l: Threads, pc: nat, capture: Capture, pos: nat, stop: bool, ghost threads: seq<Thread>,
                       ghost held: multiset<Capture>,
                       ghost visited: set<nat>)
      returns (matched: bool, out: Capture, ghost r: Added)
      requires Shape() && Live(program.code, pc) && program.code[pc].Split? && pos <= |buffer|
               && (pos > 0 || processed == 0)
      requires Ready(l, threads, held + multiset{capture})
      requires pc !in visited && Stamped(program.tags[..], tag) == visited + {pc}
      modifies this`seenStart, store, store.all, l, program.tags
      ensures r == Add(program.code, Here(processed, buffer, pos), visited, threads, pc, old(capture.vector), stop)
      ensures Stamped(program.tags[..], tag) == r.visited && matched == r.hit.Some?
      ensures matched ==> out.vector == r.hit.value.vec && out.id == r.hit.value.id
      ensures if matched then Ready(l, r.threads, held + multiset{out}) else Ready(l, r.threads, held)
      ensures forall c :: c in held ==> c.vector == old(c.vector)
      ensures forall c :: c in held && (c != capture || (stop && !matched)) ==> c.id == old(c.id)
      ensures forall k :: 0 <= k < program.tags.Length ==> program.tags[k] == old(program.tags[k])
                                                           || program.tags[k] == tag
      ensures |store.lost| == |old(store.lost)|
                + Lost(program.code, Here(processed, buffer, pos), visited, threads, pc, old(capture.vector), stop)
      ensures old(store.gone) <= store.gone && (!matched ==> store.gone == old(store.gone))
      ensures fresh(store.all - old(store.all)) && old(store.all) <= store.all
      ensures old(seenStart) || pc == 0 || (0 in r.visited && 0 !in visited) ==> seenStart
      ensures seenStart ==> old(seenStart) || 0 in r.visited
      ensures Add(program.code, Here(processed, buffer, pos), visited + {pc}, threads, program.code[pc].x,
                  old(capture.vector), stop).hit.Some? ==>
              capture.vector == old(capture.vector) && (capture in store.gone <==> capture.ref == 0)
      decreases UpTo(|program.code|) - Stamped(program.tags[..], tag), 3
    {
      hide *;
      ShapeParts();
      LiveIs(program.code, pc);
      ghost var code, at, vec := program.code, Here(processed, buffer, pos), capture.vector;
      SplitLive(code, pc);
      AddHere(code, at, visited, threads, pc, vec, stop);
      LostHere(code, at, visited, threads, pc, vec, stop);
      StartFirst(code, at, visited, threads, pc, vec, stop);
      if pc == 0 { seenStart := true; }
      matched, out, r := FirstArm(l, program.code[pc].x, capture, pos, stop, threads, held);
      if !matched {
        ghost var l0 := r;
        matched, out, r := AddThread(l, program.code[pc].y, capture, pos, stop, l0.threads, held);
      }
    }

    /** The first arm of a SPLIT, on one more hold.  If it matches, the hold of the second
        arm is taken back, and if that was the last one the capture is gone. */
    method FirstArm(l: Threads, x: nat, capture: Capture, pos: nat, stop: bool, ghost threads: seq<Thread>,
                    ghost held: multiset<Capture>)
      returns (matched: bool, out: Capture, ghost r: Added)
      requires Shape() && Live(program.code, x) && pos <= |buffer| && (pos > 0 || processed == 0)
      requires Ready(l, threads, held + multiset{capture})
      modifies this`seenStart, store, store.all, l, program.tags
      ensures r == Add(program.code, Here(processed, buffer, pos), old(Stamped(program.tags[..], tag)), threads, x,
                       old(capture.vector), stop)
      ensures Stamped(program.tags[..], tag) == r.visited && matched == r.hit.Some?
      ensures matched ==> out.vector == r.hit.value.vec && out.id == r.hit.value.id
      ensures if matched then Ready(l, r.threads, held + multiset{out})
              else Ready(l, r.threads, held + multiset{capture})
      ensures capture in store.all && capture.vector == old(capture.vector)
      ensures matched ==> (capture in store.gone <==> capture.ref == 0)
      ensures forall c :: c in held ==> c.vector == old(c.vector)
      ensures forall c :: c in held && (c != capture || (stop && !matched)) ==> c.id == old(c.id)
      ensures stop && !matched ==> capture.id == old(capture.id)
      ensures forall k :: 0 <= k < program.tags.Length ==> program.tags[k] == old(program.tags[k])
                                                           || program.tags[k] == tag
      ensures |store.lost| == |old(store.lost)| + Lost(program.code, Here(processed, buffer, pos),
                old(Stamped(program.tags[..], tag)), threads, x, old(capture.vector), stop)
      ensures old(store.gone) <= store.gone && (!matched ==> store.gone == old(store.gone))
      ensures fresh(store.all - old(store.all)) && old(store.all) <= store.all
      ensures old(seenStart) || (0 in r.visited && 0 !in old(Stamped(program.tags[..], tag))) ==> seenStart
      ensures seenStart ==> old(seenStart) || 0 in r.visited
      decreases UpTo(|program.code|) - Stamped(program.tags[..], tag), 2
    {
      hide *;
      ReadyHolds(l, threads, held, capture);
      Share(l, capture, threads, held);
      ghost var held' := held + multiset{capture};
      matched, out, r := AddThread(l, x, capture, pos, stop, threads, held');
      if matched {
        Regroup(held, multiset{capture}, multiset{out});
        HeldNotGone(l, r.threads, held + multiset{out}, capture);
        Unshare2(l, capture, out, r.threads, held);
      }
    }

    lemma HeldNotGone(l: Threads, threads: seq<Thread>, m: multiset<Capture>, capture: Capture)
      requires Ready(l, threads, m + multiset{capture})
      ensures capture !in store.gone
    {
      hide Shows, Held, Sized;
      assert capture in m + multiset{capture} + Held(l.nodes);
    }

    lemma ShapeParts()
      requires Shape()
      ensures program.tags.Length == |program.code| && WellTargeted(program.code) && CodeLookAheadFree(program.code)
      ensures |program.code| > 3 && program.code[0] == Split(3, 1)
      ensures forall pc :: 0 <= pc < |program.code| && program.code[pc].Save? ==> program.code[pc].group < store.slots
    {
      hide WellTargeted, CodeLookAheadFree;
    }

    /** The id of the regex whose MATCH the captures reached. */
    method Name(l: Threads, capture: Capture, id: nat, ghost threads: seq<Thread>, ghost held: multiset<Capture>)
      requires Ready(l, threads, held + multiset{capture})
      modifies capture`id
      ensures Ready(l, threads, held + multiset{capture}) && capture.id == id
    {
      hide Held;
      capture.id := id;
    }

    lemma ReadyHolds(l: Threads, threads: seq<Thread>, held: multiset<Capture>, capture: Capture)
      requires Ready(l, threads, held + multiset{capture})
      ensures capture in store.all
    {
      hide Shows, Held;
      assert capture in held + multiset{capture} + Held(l.nodes);
    }

    /** The hold of the second arm is given back when the first arm matched. */
    method Unshare2(l: Threads, capture: Capture, out: Capture, ghost threads: seq<Thread>,
                    ghost held: multiset<Capture>)
      requires Ready(l, threads, held + multiset{capture} + multiset{out})
      modifies capture`ref, store`gone
      ensures Ready(l, threads, held + multiset{out}) && capture.ref == old(capture.ref) - 1
      ensures store.gone == old(store.gone) + if capture.ref == 0 then {capture} else {}
    {
      hide *;
      assert held + multiset{capture} + multiset{out} == held + multiset{out} + multiset{capture};
      Unshare(l, capture, threads, held + multiset{out});
    }

    /** A capture in flight is dropped, and its count stays as it is. */
    ghost method Lose(l: Threads, capture: Capture, threads: seq<Thread>, held: multiset<Capture>)
      requires Ready(l, threads, held + multiset{capture})
      modifies store`lost
      ensures Ready(l, threads, held) && |store.lost| == |old(store.lost)| + 1
    {
      hide Counted, Held, Freed, Sized, Store.Counts;
      Regroup(held, multiset{capture}, Held(l.nodes));
      store.Lose(capture, held + Held(l.nodes));
    }

    /** One more holder of `capture`. */
    method Share(l: Threads, capture: Capture, ghost threads: seq<Thread>, ghost held: multiset<Capture>)
      requires Ready(l, threads, held + multiset{capture})
      modifies capture`ref
      ensures Ready(l, threads, held + multiset{capture} + multiset{capture}) && capture.ref == old(capture.ref) + 1
    {
      hide Counted, Held, Freed, Sized, Store.Counts;
      ghost var c, h := multiset{capture}, Held(l.nodes);
      Regroup(held, c, h);
      store.Share(capture, held + h);
      assert held + h + c + c == held + c + c + h;
    }

    /** One holder less, without a look at the free list. */
    method Unshare(l: Threads, capture: Capture, ghost threads: seq<Thread>, ghost held: multiset<Capture>)
      requires Ready(l, threads, held + multiset{capture})
      modifies capture`ref, store`gone
      ensures Ready(l, threads, held) && capture.ref == old(capture.ref) - 1
      ensures store.gone == old(store.gone) + if capture.ref == 0 then {capture} else {}
    {
      hide Counted, Held, Freed, Sized, Store.Counts;
      Regroup(held, multiset{capture}, Held(l.nodes));
      store.Unshare(capture, held + Held(l.nodes));
    }

    method Push(l: Threads, pc: nat, capture: Capture, ghost threads: seq<Thread>, ghost held: multiset<Capture>)
      requires Ready(l, threads, held + multiset{capture})
      modifies l
      ensures Ready(l, threads + [Thread(pc, capture.vector)], held)
    {
      hide Counted, Held, Freed, Sized, Store.Counts;
      HeldPush(l.nodes, Node(pc, capture));
      Regroup(held, multiset{capture}, Held(l.nodes));
      store.HeldHere(held + Held(l.nodes), capture);
      Regrouped(held, Held(l.nodes), multiset{capture});
      l.nodes := l.nodes + [Node(pc, capture)];
    }

    method Write(l: Threads, capture: Capture, group: nat, at: nat, ghost threads: seq<Thread>,
                 ghost held: multiset<Capture>) returns (c: Capture)
      requires Ready(l, threads, held + multiset{capture}) && group < store.slots
      modifies store, store.all
      ensures Ready(l, threads, held + multiset{c}) && c !in held
      ensures c.vector == SetCapture(old(capture.vector), group, at)
      ensures forall d :: d in held ==> d.vector == old(d.vector) && d.id == old(d.id)
      ensures fresh(store.all - old(store.all)) && old(store.all) <= store.all
      ensures store.lost == old(store.lost) && store.gone == old(store.gone)
    {
      hide Counted, Held, Freed, Sized, Store.Counts, Ready;
      ghost var nodes := l.nodes;
      ghost var h := Held(nodes);
      ReadyParts(l, threads, held, multiset{capture});
      HeldAny(nodes, held);
      c := store.Update(capture, group, at, held + h);
      ReadyAgain(l, threads, held, multiset{c});
      SetIs(old(capture.vector), group, at);
    }

    lemma ReadyAgain(l: Threads, threads: seq<Thread>, held: multiset<Capture>, c: multiset<Capture>)
      requires store.Valid() && Shows(store.all, l.nodes, threads) && store.Counts(held + Held(l.nodes) + c)
      ensures Ready(l, threads, held + c)
    {
      hide Counted, Held, Freed, Sized, Store.Counts, Shows;
      Regroup(held, Held(l.nodes), c);
    }

    lemma ReadyParts(l: Threads, threads: seq<Thread>, held: multiset<Capture>, c: multiset<Capture>)
      requires Ready(l, threads, held + c)
      ensures store.Valid() && Shows(store.all, l.nodes, threads) && store.Counts(held + Held(l.nodes) + c)
      ensures forall d :: d in c ==> d in store.all && |d.vector| == store.slots
    {
      hide Counted, Held, Freed, Shows, Store.Counts;
      Regroup(held, c, Held(l.nodes));
      HeldAll(store, held + Held(l.nodes), c);
    }

    /** Takes the first thread off the list; its capture is in flight. */
    method TakeHead(clist: Threads, nlist: Threads, ghost rest: seq<Thread>, ghost next: seq<Thread>,
                    ghost m: multiset<Capture>) returns (t: Node)
      requires clist != nlist && clist.nodes != []
      requires Ready(nlist, next, m + Held(clist.nodes)) && Shows(store.all, clist.nodes, rest)
      modifies clist
      ensures clist.nodes == old(clist.nodes)[1..] && t == old(clist.nodes)[0]
      ensures Ready(nlist, next, m + Held(clist.nodes) + multiset{t.capture})
              && Shows(store.all, clist.nodes, rest[1..])
      ensures t.pc == rest[0].pc && t.capture.vector == rest[0].vec && t.capture in store.all
    {
      hide Ready, Held;
      t := clist.nodes[0];
      HeldPop(clist.nodes);
      clist.nodes := clist.nodes[1..];
      Reordered(m, multiset{t.capture}, Held(clist.nodes));
    }

    /** AddThread while another list waits: its threads do not change. */
    method AddNext(clist: Threads, nlist: Threads, pc: nat, capture: Capture, sp: nat, ghost rest: seq<Thread>,
                   ghost next: seq<Thread>,
                   ghost m: multiset<Capture>)
      returns (hit: bool, out: Capture, ghost r: Added)
      requires Shape() && clist != nlist && Live(program.code, pc) && 0 < sp <= |buffer|
      requires Ready(nlist, next, m + Held(clist.nodes) + multiset{capture}) && Shows(store.all, clist.nodes, rest)
      modifies this`seenStart, store, store.all, nlist, program.tags
      ensures Shows(store.all, clist.nodes, rest)
      ensures r ==
              Add(program.code, Here(processed, buffer, sp), old(Stamped(program.tags[..], tag)), next, pc,
                  old(capture.vector), true)
      ensures Stamped(program.tags[..], tag) == r.visited && hit == r.hit.Some?
      ensures hit ==> out.vector == r.hit.value.vec && out.id == r.hit.value.id
      ensures if hit then Ready(nlist, r.threads, m + Held(clist.nodes) + multiset{out})
              else Ready(nlist, r.threads, m + Held(clist.nodes))
      ensures forall c :: c in m ==> c.vector == old(c.vector) && (!hit ==> c.id == old(c.id))
      ensures forall k :: 0 <= k < program.tags.Length ==> program.tags[k] == old(program.tags[k])
                                                           || program.tags[k] == tag
      ensures |store.lost| == |old(store.lost)| + Lost(program.code, Here(processed, buffer, sp),
                old(Stamped(program.tags[..], tag)), next, pc, old(capture.vector), true)
      ensures old(store.gone) <= store.gone && (!hit ==> store.gone == old(store.gone))
      ensures fresh(store.all - old(store.all)) && old(store.all) <= store.all
      ensures old(seenStart) || (0 in r.visited && 0 !in old(Stamped(program.tags[..], tag))) ==> seenStart
      ensures seenStart ==> old(seenStart) || 0 in r.visited
    {
      hide Ready, Held, Shape, Live, Stamped, Add, Here, Lost;
      ghost var nodes := clist.nodes;
      HeldAny(nodes, m);
      hit, out, r := AddThread(nlist, pc, capture, sp, true, next, m + Held(nodes));
    }

    lemma HeldIsIn(m: multiset<Capture>, held: multiset<Capture>, capture: Capture, l: Threads, threads: seq<Thread>)
      requires m <= held && Ready(l, threads, held + multiset{capture})
      ensures forall c :: c in m ==> c in store.all
    {
      hide Shows, Held;
      forall c | c in m ensures c in store.all { assert c in held + multiset{capture} + Held(l.nodes); }
    }

    /** Gives a capture in flight back. */
    method GiveBack(l: Threads, capture: Capture, ghost threads: seq<Thread>, ghost m: multiset<Capture>)
      requires Ready(l, threads, m + multiset{capture})
      modifies capture`ref, store`free
      ensures Ready(l, threads, m) && capture.ref == old(capture.ref) - 1
      ensures store.free == (if old(capture.ref) == 1 then [capture] else []) + old(store.free)
    {
      hide Counted, Held, Freed, Sized, Store.Counts;
      Regroup(m, multiset{capture}, Held(l.nodes));
      store.DecrRef(capture, m + Held(l.nodes));
    }

    /** A thread that ends here gives its captures back. */
    method Drop(clist: Threads, nlist: Threads, capture: Capture, ghost rest: seq<Thread>, ghost next: seq<Thread>,
                ghost m: multiset<Capture>)
      requires clist != nlist && Ready(nlist, next, m + multiset{capture}) && Shows(store.all, clist.nodes, rest)
      modifies capture`ref, store`free
      ensures Ready(nlist, next, m) && Shows(store.all, clist.nodes, rest) && capture.ref == old(capture.ref) - 1
      ensures store.free == (if old(capture.ref) == 1 then [capture] else []) + old(store.free)
    {
      hide Ready, Held;
      GiveBack(nlist, capture, next, m);
    }

    /** Empties a list; what only its threads held is free. */
    method Clear(list: Threads, other: Threads, ghost next: seq<Thread>, ghost m: multiset<Capture>)
      requires list != other && Ready(other, next, m + Held(list.nodes))
      modifies list, store`free, store.all`ref
      ensures list.nodes == [] && Ready(other, next, m)
      ensures forall c :: c in store.all && old(c.ref) == old(Held(list.nodes))[c] > 0 ==> c.ref == 0 && c in store.free
      ensures forall c :: c in store.all ==> c.ref == old(c.ref) - old(Held(list.nodes))[c]
    {
      hide *;
      CountsNow(other, next, m, list.nodes);
      while list.nodes != []
        invariant Ready(other, next, m + Held(list.nodes))
        invariant store.all == old(store.all) && store.lost == old(store.lost) && store.gone == old(store.gone)
        decreases |list.nodes|
      {
        var t := list.nodes[0];
        HeldPop(list.nodes);
        list.nodes := list.nodes[1..];
        Reordered(m, multiset{t.capture}, Held(list.nodes));
        ReadyHolds(other, next, m + Held(list.nodes), t.capture);
        GiveBack(other, t.capture, next, m + Held(list.nodes));
      }
      HeldNone(m);
      CountsThen(other, next, m);
    }

    /** The counts before and after a list is emptied. */
    lemma CountsNow(other: Threads, next: seq<Thread>, m: multiset<Capture>, nodes: seq<Node>)
      requires Ready(other, next, m + Held(nodes))
      ensures forall c :: c in store.all ==> c.ref == m[c] + Held(nodes)[c] + Held(other.nodes)[c] + store.lost[c]
      ensures forall c :: c in store.all && c.ref > 0 ==> c !in store.gone
    {
      hide Held, Shows, Sized;
    }

    lemma CountsThen(other: Threads, next: seq<Thread>, m: multiset<Capture>)
      requires Ready(other, next, m)
      ensures forall c :: c in store.all ==> c.ref == m[c] + Held(other.nodes)[c] + store.lost[c]
      ensures forall c :: c in store.all && c.ref == 0 && c !in store.gone ==> c in store.free
    {
      hide Held, Shows, Sized;
    }

    /** One thread of the current list on the byte at `sp`. */
    method RunOne(clist: Threads, nlist: Threads, sp: nat, ghost there: Place, ghost rest: seq<Thread>,
                  ghost next: seq<Thread>, ghost m: multiset<Capture>)
      returns (hit: bool, out: Capture, ghost r: Added)
      requires Shape() && clist != nlist && clist.nodes != [] && sp <= |buffer|
               && (sp < |buffer| ==> there == Here(processed, buffer, sp + 1))
      requires Ready(nlist, next, m + Held(clist.nodes)) && Shows(store.all, clist.nodes, rest) && rest != []
               && Live(program.code, rest[0].pc)
      modifies this`seenStart, store, store.all, clist, nlist, program.tags
      ensures clist.nodes == old(clist.nodes)[1..] && Shows(store.all, clist.nodes, rest[1..])
      ensures RunThreads(program.code, ByteAt(buffer, sp), there, rest, old(Stamped(program.tags[..], tag)), next)
              == if hit then r else RunThreads(program.code, ByteAt(buffer, sp), there, rest[1..], r.visited, r.threads)
      ensures old(Stamped(program.tags[..], tag)) <= Stamped(program.tags[..], tag) == r.visited && hit == r.hit.Some?
      ensures hit ==> out.vector == r.hit.value.vec && out.id == r.hit.value.id
      ensures if hit then Ready(nlist, r.threads, m + Held(clist.nodes) + multiset{out})
              else Ready(nlist, r.threads, m + Held(clist.nodes))
      ensures forall c :: c in m ==> c.vector == old(c.vector) && (!hit ==> c.id == old(c.id))
      ensures forall k :: 0 <= k < program.tags.Length ==> program.tags[k] == old(program.tags[k])
                                                           || program.tags[k] == tag
      ensures RunLost(program.code, ByteAt(buffer, sp), there, rest, old(Stamped(program.tags[..], tag)), next)
              == |store.lost| - |old(store.lost)|
                 + if hit then 0 else RunLost(program.code, ByteAt(buffer, sp), there, rest[1..], r.visited, r.threads)
      ensures old(store.gone) <= store.gone && (!hit ==> store.gone == old(store.gone))
      ensures fresh(store.all - old(store.all)) && old(store.all) <= store.all
      ensures old(seenStart) || (0 in r.visited && 0 !in old(Stamped(program.tags[..], tag))) ==> seenStart
      ensures seenStart ==> old(seenStart) || 0 in r.visited
    {
      hide *;
      ShapeParts();
      LiveIs(program.code, rest[0].pc);
      ghost var code, c, visited := program.code, ByteAt(buffer, sp), Stamped(program.tags[..], tag);
      RunOn(code, c, there, rest, visited, next);
      RunLostOn(code, c, there, rest, visited, next);
      var t := TakeHead(clist, nlist, rest, next, m);
      ghost var held := m + Held(clist.nodes);
      hit, out, r := false, t.capture, Added(visited, next, None);
      if program.code[t.pc].Match? {
        Name(nlist, t.capture, program.code[t.pc].id, next, held);
        hit, r := true, Added(visited, next, Some(Hit(code[t.pc].id, t.capture.vector)));
        return;
      }
      var consumes := Consumes(program.code[t.pc], buffer, sp);
      ByteIsAt(buffer, sp);
      OnlyConsumers(program.code[t.pc]);
      if consumes {
        NextConsumed(code, t.pc);
        hit, out, r := AddNext(clist, nlist, t.pc + 1, t.capture, sp + 1, rest[1..], next, m);
      } else {
        HeldIsIn(m, held, t.capture, nlist, next);
        Drop(clist, nlist, t.capture, rest[1..], next, held);
      }
    }

    /** The threads of the current list in order; a match ends the step, replaces
        the pending match and drops the threads behind it. */
    method RunCurrent(clist: Threads, nlist: Threads, matched: Capture?, sp: nat, ghost there: Place,
                      ghost list: seq<Thread>)
      returns (pending: Capture?, ghost r: Added)
      requires Shape() && clist != nlist && nlist.nodes == [] && sp <= |buffer|
               && (sp < |buffer| ==> there == Here(processed, buffer, sp + 1))
      requires Ready(nlist, [], HeldBy(matched) + Held(clist.nodes)) && Shows(store.all, clist.nodes, list)
               && AllLive(program.code, list)
      requires Stamped(program.tags[..], tag) == {}
      modifies this`seenStart, store, store.all, clist, nlist, program.tags
      ensures r == RunThreads(program.code, ByteAt(buffer, sp), there, list, {}, [])
      ensures clist.nodes == [] && Ready(nlist, r.threads, HeldBy(pending))
      ensures HitOf(pending) == OrElse(r.hit, old(HitOf(matched)))
      ensures forall k :: 0 <= k < program.tags.Length ==> program.tags[k] == old(program.tags[k])
                                                           || program.tags[k] == tag
      ensures fresh(store.all - old(store.all)) && old(store.all) <= store.all
      ensures |store.lost| == |old(store.lost)| + RunLost(program.code, ByteAt(buffer, sp), there, list, {}, [])
      ensures old(store.gone) <= store.gone && (r.hit.None? ==> store.gone == old(store.gone))
      ensures seenStart <==> old(seenStart) || 0 in r.visited
    {
      hide *;
      MatchedKnown(matched);
      ghost var hit0 := HitOf(matched);
      ghost var code, c, m := program.code, ByteAt(buffer, sp), HeldBy(matched);
      ghost var rest := list;
      r := Added({}, [], None);
      pending := matched;
      while clist.nodes != []
        invariant Ready(nlist, r.threads, m + Held(clist.nodes)) && Shows(store.all, clist.nodes, rest)
                  && AllLive(code, rest)
        invariant RunThreads(code, c, there, list, {}, []) == RunThreads(code, c, there, rest, r.visited, r.threads)
        invariant RunLost(code, c, there, list, {}, []) ==
                  |store.lost| - |old(store.lost)| + RunLost(code, c, there, rest, r.visited, r.threads)
        invariant store.gone == old(store.gone)
        invariant Stamped(program.tags[..], tag) == r.visited
        invariant matched != null ==> matched.id == old(matched.id) && matched.vector == old(matched.vector)
        invariant forall k :: 0 <= k < program.tags.Length ==> program.tags[k] == old(program.tags[k])
                                                               || program.tags[k] == tag
        invariant fresh(store.all - old(store.all)) && old(store.all) <= store.all
        invariant seenStart <==> old(seenStart) || 0 in r.visited
        invariant r.hit.None?
        decreases |clist.nodes|
      {
        ShowsLength(store.all, clist.nodes, rest);
        LiveTail(code, rest);
        var hit, out;
        hit, out, r := RunOne(clist, nlist, sp, there, rest, r.threads, m);
        rest := rest[1..];
        if hit {
          pending := Replace(clist, nlist, matched, out, r.threads);
          MatchedKnown(pending);
          EitherHit(r.hit, hit0);
          return;
        }
      }
      ShowsLength(store.all, clist.nodes, rest);
      RunDone(code, c, there, r.visited, r.threads);
      RunLostNone(code, c, there, r.visited, r.threads);
      HeldNone(m);
      MatchedKnown(matched);
      EitherHit(r.hit, hit0);
    }

    lemma MatchedKnown(matched: Capture?)
      ensures matched != null ==> matched in HeldBy(matched)
      ensures HitOf(matched) == if matched == null then None else Some(Hit(matched.id, matched.vector))
    {
    }

    /** The new match takes the place of the pending one. */
    method Replace(clist: Threads, nlist: Threads, matched: Capture?, out: Capture, ghost next: seq<Thread>)
        returns (pending: Capture)
      requires clist != nlist && Ready(nlist, next, HeldBy(matched) + Held(clist.nodes) + multiset{out})
      modifies clist, store`free, store.all`ref
      ensures clist.nodes == [] && Ready(nlist, next, HeldBy(pending)) && pending == out
    {
      hide *;
      ghost var h, o := Held(clist.nodes), multiset{out};
      ReadyHolds(nlist, next, HeldBy(matched) + h, out);
      if matched != null {
        Turned(h, o, matched);
        ReadyHolds(nlist, next, o + h, matched);
        GiveBack(nlist, matched, next, o + h);
      } else {
        NoneTurned(h, o);
      }
      pending := out;
      Clear(clist, nlist, next, o);
      ByItself(out);
    }

    ghost function Config(): Setup {
      PikeStream.Setup(program.code, lead, store.slots)
    }

    /** The current list holds `list`, the other is empty, and all holders are counted. */
    ghost predicate Lined(list: seq<Thread>, clist: Threads, nlist: Threads, matched: Capture?)
      reads store, store.all, clist, nlist
    {
      && clist != nlist && nlist.nodes == [] && Ready(nlist, [], HeldBy(matched) + Held(clist.nodes))
      && Shows(store.all, clist.nodes, list) && AllLive(program.code, list)
    }

    /** The lists, the pending match and the flag are those of `m`. */
    ghost predicate Carries(m: Machine, clist: Threads, nlist: Threads, matched: Capture?)
      reads this`seenStart, store, store.all, clist, nlist, matched
    {
      Lined(m.list, clist, nlist, matched) && HitOf(matched) == m.matched && seenStart == m.seen
    }

    /** The search starts over at offset `sp` with blank captures. */
    method StartOver(clist: Threads, nlist: Threads, matched: Capture?, sp: nat)
      requires Shape() && clist != nlist && clist.nodes == [] == nlist.nodes && sp <= |buffer|
               && (sp > 0 || processed == 0)
      requires Ready(nlist, [], HeldBy(matched)) && program.TagsUpTo(tag)
      modifies this`seenStart, this`tag, store, store.all, clist, program.tags
      ensures Ready(nlist, [], HeldBy(matched) + Held(clist.nodes)) && program.TagsUpTo(tag)
      ensures Shows(store.all, clist.nodes, Config().StartList(Here(processed, buffer, sp))) && seenStart
      ensures HitOf(matched) == old(HitOf(matched))
      ensures fresh(store.all - old(store.all)) && old(store.all) <= store.all
      ensures |store.lost| == |old(store.lost)|
                + Lost(program.code, Here(processed, buffer, sp), {}, [], 0, Blank(store.slots), false)
    {
      hide Ready, Held, Shape, Live, Stamped, Add, Lost, Begin, Here, Shows, WellTargeted, CodeLookAheadFree;
      ShapeParts();
      ghost var code, at, m := program.code, Here(processed, buffer, sp), HeldBy(matched);
      var capture := Fresh(clist, nlist, m);
      assert HitOf(matched) == old(HitOf(matched));
      tag := tag + 1;
      NoneStamped(program.tags[..], tag);
      BeginIs(code, at, store.slots);
      StartLive(code);
      var hit, out;
      ghost var r;
      hit, out, r := AddThread(clist, 0, capture, sp, false, [], m);
      Handed(clist, nlist, r.threads, m);
    }

    /** Scans for a byte some leading instruction accepts; a single CHAR is
        searched for directly. */
    method FindFirstByte(leading: seq<nat>, sp: nat) returns (q: nat)
      requires sp <= |buffer| && (forall k :: 0 <= k < |leading| ==> leading[k] < |program.code|)
      ensures sp <= q <= |buffer|
      ensures forall k :: sp <= k < q ==> !Hits(program.code, leading, buffer[k])
      ensures q < |buffer| ==> Hits(program.code, leading, buffer[q])
    {
      q := sp;
      if |leading| == 1 && program.code[leading[0]].Char? {
        var ch := program.code[leading[0]].ch;
        while q < |buffer| && buffer[q] != ch
          invariant sp <= q <= |buffer| && forall k :: sp <= k < q ==> buffer[k] != ch
        {
          q := q + 1;
        }
        assert q < |buffer| ==> program.code[leading[0]].Accepts(buffer[q]);
        return;
      }
      while q < |buffer|
        invariant sp <= q <= |buffer| && forall k :: sp <= k < q ==> !Hits(program.code, leading, buffer[k])
      {
        var i := 0;
        while i < |leading|
          invariant 0 <= i <= |leading|
          invariant forall k :: 0 <= k < i ==> !program.code[leading[k]].Accepts(buffer[q])
        {
          var inst := program.code[leading[i]];
          var found := Consumes(inst, buffer, q);
          if found { return; }
          i := i + 1;
        }
        q := q + 1;
      }
    }

    /** Whether the list has as many threads as at first, at the same instructions;
        the last one is not compared. */
    method CompareInitial(clist: Threads, ghost list: seq<Thread>) returns (same: bool)
      requires Shows(store.all, clist.nodes, list) && Knows()
      ensures same == Config().LooksInitial(list)
    {
      hide Setup.Initial;
      if |clist.nodes| != initialCount { return false; }
      var i := 0;
      while i + 1 < |clist.nodes|
        invariant (i == 0 || i < |clist.nodes|) && forall k :: 0 <= k < i ==> list[k].pc == initial[k]
      {
        if clist.nodes[i].pc != initial[i] { return false; }
        i := i + 1;
      }
      return true;
    }

    /** What was recorded on the first call. */
    ghost predicate Knows()
      reads this`initial, this`initialCount
    {
      && initialCount == |Config().Initial()| && |initial| == (if initialCount == 0 then 0 else initialCount - 1)
      && (forall k :: 0 <= k < |initial| ==> initial[k] == Config().Initial()[k].pc)
      && (lead.Some? ==> forall k :: 0 <= k < |lead.value| ==> lead.value[k] < |program.code|)
    }

    /** The jump to the next byte that can start a match. */
    method JumpAhead(clist: Threads, nlist: Threads, matched: Capture?, sp: nat, ghost done: seq<Byte>,
                     ghost m: Machine) returns (q: nat, ghost j: Machine)
      requires Shape() && Knows() && program.TagsUpTo(tag) && |done| == processed && sp <= |buffer|
      requires Carries(m, clist, nlist, matched) && m.pos == processed + sp
      modifies this`seenStart, this`tag, store, store.all, clist, program.tags
      ensures j == Config().Jump(done + buffer, m) && j.pos == processed + q && sp <= q <= |buffer|
      ensures Carries(j, clist, nlist, matched) && program.TagsUpTo(tag)
      ensures fresh(store.all - old(store.all)) && old(store.all) <= store.all
    {
      hide Ready, Held, Shape, Lined, Knows, Shows, Hits, PikeStream.Setup.Jump, PikeStream.Setup.StartList,
          PikeStream.Setup.LooksInitial, PlaceIn, Here;
      ghost var s, ctx := done + buffer, Config();
      q, j := sp, ctx.Jump(s, m);
      if lead.None? || !seenStart {
        JumpStays(ctx, s, m);
        return;
      }
      seenStart := false;
      LinedShows(m.list, clist, nlist, matched);
      var same := CompareInitial(clist, m.list);
      if sp == |buffer| || !same {
        JumpFails(ctx, s, m);
        return;
      }
      LeadFits();
      q := FindFirstByte(lead.value, sp);
      JumpGoes(ctx, s, m, processed + q) by { SameBytes(ctx, done, buffer, sp, q); }
      if q > sp { Restart(clist, nlist, matched, q, done, m.list); }
    }

    /** Drops the current list and starts over at offset `q`. */
    method Restart(clist: Threads, nlist: Threads, matched: Capture?, q: nat, ghost done: seq<Byte>,
                   ghost list: seq<Thread>)
      requires Shape() && program.TagsUpTo(tag) && |done| == processed && 0 < q <= |buffer|
               && Lined(list, clist, nlist, matched)
      modifies this`seenStart, this`tag, store, store.all, clist, program.tags
      ensures Lined(Config().StartList(PlaceIn(done + buffer, processed + q)), clist, nlist, matched) && seenStart
              && program.TagsUpTo(tag)
      ensures HitOf(matched) == old(HitOf(matched))
      ensures fresh(store.all - old(store.all)) && old(store.all) <= store.all
    {
      hide Ready, Held, Shape, Lined, Shows, PikeStream.Setup.StartList, PlaceIn, Here;
      LinedShows(list, clist, nlist, matched);
      if matched != null { MatchedHere(nlist, [], matched, Held(clist.nodes)); }
      Clear(clist, nlist, [], HeldBy(matched));
      StartOver(clist, nlist, matched, q);
      HereIs(done, buffer, q);
      LineUp(q, clist, nlist, matched);
    }

    lemma MatchedHere(l: Threads, threads: seq<Thread>, matched: Capture, m: multiset<Capture>)
      requires Ready(l, threads, HeldBy(matched) + m)
      ensures matched in store.all
    {
      hide Shows, Held;
      assert matched in HeldBy(matched) + m + Held(l.nodes);
    }

    /** One position: the threads run on the byte at `sp`, and the lists change places. */
    method Advance(clist: Threads, nlist: Threads, matched: Capture?, sp: nat, ghost done: seq<Byte>, ghost m: Machine)
      returns (pending: Capture?, ghost m': Machine)
      requires Shape() && program.TagsUpTo(tag) && |done| == processed && sp <= |buffer|
      requires Carries(m, clist, nlist, matched) && m.pos == processed + sp
      modifies this`seenStart, this`tag, store, store.all, clist, nlist, program.tags
      ensures m' == Config().Advance(done + buffer, m) && Carries(m', nlist, clist, pending) && program.TagsUpTo(tag)
      ensures m'.pos == if sp < |buffer| then m.pos + 1 else m.pos
      ensures fresh(store.all - old(store.all)) && old(store.all) <= store.all
    {
      hide Ready, Held, Shape, Live, Lined, Shows, RunThreads, PlaceIn, Here, ByteAt, Stamped, AllLive;
      ghost var s := done + buffer;
      ghost var there := PlaceIn(s, processed + sp + 1);
      m' := Config().Advance(s, m);
      LinedShows(m.list, clist, nlist, matched);
      LinedLive(m.list, clist, nlist, matched, ByteAt(s, processed + sp), there);
      SameByte(done, buffer, sp);
      if sp < |buffer| { HereIs(done, buffer, sp + 1); }
      tag := tag + 1;
      NoneStamped(program.tags[..], tag);
      ghost var r;
      pending, r := RunCurrent(clist, nlist, matched, sp, there, m.list);
      LineNext(r.threads, nlist, clist, pending);
    }

    lemma LinedLive(list: seq<Thread>, clist: Threads, nlist: Threads, matched: Capture?, c: Option<Byte>, there: Place)
      requires Shape() && Lined(list, clist, nlist, matched)
      ensures AllLive(program.code, list)
              && AllLive(program.code, RunThreads(program.code, c, there, list, {}, []).threads)
    {
      ThreadsLive(program.code, c, there, list, {}, []);
      hide Ready, Shows, RunThreads;
    }

    lemma LineNext(list: seq<Thread>, clist: Threads, nlist: Threads, matched: Capture?)
      requires clist != nlist && nlist.nodes == [] && Ready(clist, list, HeldBy(matched)) && AllLive(program.code, list)
      ensures Lined(list, clist, nlist, matched)
    {
      hide AllLive;
      Handed(clist, nlist, list, HeldBy(matched));
    }

    lemma LinedShows(list: seq<Thread>, clist: Threads, nlist: Threads, matched: Capture?)
      requires Lined(list, clist, nlist, matched)
      ensures |clist.nodes| == |list| && Shows(store.all, clist.nodes, list) && clist != nlist && nlist.nodes == []
      ensures Ready(nlist, [], HeldBy(matched) + Held(clist.nodes))
    {
    }

    lemma LeadFits()
      requires Knows() && lead.Some?
      ensures forall k :: 0 <= k < |lead.value| ==> lead.value[k] < |program.code|
    {
    }

    /** The start list is lined up. */
    lemma LineUp(sp: nat, clist: Threads, nlist: Threads, matched: Capture?)
      requires Shape() && clist != nlist && nlist.nodes == [] && sp <= |buffer|
      requires Ready(nlist, [], HeldBy(matched) + Held(clist.nodes))
      requires Shows(store.all, clist.nodes, Config().StartList(Here(processed, buffer, sp)))
      ensures Lined(Config().StartList(Here(processed, buffer, sp)), clist, nlist, matched)
    {
      var at := Here(processed, buffer, sp);
      AddLive(program.code, at, {}, [], 0, Blank(store.slots), false);
      hide Ready, Add;
    }

    /** The main loop over the chunk. */
    method Feed(a: Threads, b: Threads, matched: Capture?, eof: bool, ghost done: seq<Byte>, ghost m: Machine)
      returns (clist: Threads, nlist: Threads, pending: Capture?, sp: nat, ghost m': Machine)
      requires Shape() && Knows() && program.TagsUpTo(tag) && |done| == processed
      requires Carries(m, a, b, matched) && m.pos == processed
      modifies this`seenStart, this`tag, store, store.all, a, b, program.tags
      ensures m' == Config().Feed(done + buffer, eof, m) && Carries(m', clist, nlist, pending) && program.TagsUpTo(tag)
      ensures sp <= |buffer| && m'.pos == processed + sp
      ensures (clist == a && nlist == b) || (clist == b && nlist == a)
      ensures fresh(store.all - old(store.all)) && old(store.all) <= store.all
    {
      hide Shape, Knows, Carries, PikeStream.Setup.Jump, PikeStream.Setup.Advance, PikeStream.Setup.Feed;
      ghost var ctx, s := Config(), done + buffer;
      clist, nlist, pending, sp, m' := a, b, matched, 0, m;
      while sp < |buffer| || (eof && sp == |buffer|)
        invariant sp <= |buffer| && ((clist == a && nlist == b) || (clist == b && nlist == a))
        invariant program.TagsUpTo(tag) && Carries(m', clist, nlist, pending) && m'.pos == processed + sp
        invariant ctx.Feed(s, eof, m) == ctx.Feed(s, eof, m')
        invariant fresh(store.all - old(store.all)) && old(store.all) <= store.all
        decreases |buffer| - sp
      {
        FeedUnfold(ctx, s, eof, m');
        CarriesLength(m', clist, nlist, pending);
        if clist.nodes == [] { return; }
        var sp0 := sp;
        sp, m' := JumpAhead(clist, nlist, pending, sp, done, m');
        if sp > sp0 && sp == |buffer| { return; }
        pending, m' := Advance(clist, nlist, pending, sp, done, m');
        clist, nlist := nlist, clist;
        if sp == |buffer| { return; }
        sp := sp + 1;
      }
      FeedUnfold(ctx, s, eof, m');
    }

    /** Takes in a chunk; on the first call the search starts. */
    method Open(input: seq<Byte>)
      requires Valid() && !ended
      modifies this, store, store.all, current, program.tags
      ensures Shape() && Roomy() && LeadWithin() && Knows() && program.TagsUpTo(tag) && buffer == input && !firstBuf
              && !ended
      ensures |done| == processed && Fits(program.code, machine.list)
      ensures Carries(machine, current, next, matched) && machine.pos == processed
      ensures processed == old(processed) && done == old(done) && machine == old(machine) && current == old(current)
              && next == old(next)
      ensures fresh(store.all - old(store.all)) && old(store.all) <= store.all
    {
      hide Shape, Knows, Carries, Ready, GroupsFit, Roomy;
      buffer := input;
      tag := program.tag;
      if firstBuf {
        firstBuf := false;
        StartFresh();
      }
    }

    method StartFresh()
      requires Shape() && LeadWithin() && program.TagsUpTo(tag) && current != next
      requires processed == 0 && matched == null && current.nodes == [] == next.nodes && Ready(next, [], multiset{})
               && machine == Config().Fresh()
      modifies this`seenStart, this`tag, this`initial, this`initialCount, store, store.all, current, program.tags
      ensures Knows() && program.TagsUpTo(tag) && Carries(machine, current, next, matched)
      ensures fresh(store.all - old(store.all)) && old(store.all) <= store.all
    {
      hide Shape, Ready, Shows, Lined, PikeStream.Setup.StartList;
      HeldByNone();
      StartOver(current, next, null, 0);
      LineUp(0, current, next, null);
      LinedShows(machine.list, current, next, null);
      RecordInitial();
    }

    /** Records the instructions of the list, the last one apart. */
    method RecordInitial()
      requires LeadWithin() && Shows(store.all, current.nodes, Config().Initial())
      modifies this`initial, this`initialCount
      ensures Knows()
    {
      hide PikeStream.Setup.Initial;
      initialCount := |current.nodes|;
      initial := [];
      var i := 0;
      while i + 1 < |current.nodes|
        invariant initialCount == |current.nodes| && |initial| == i && (i == 0 || i < |current.nodes|)
        invariant forall k :: 0 <= k < i ==> initial[k] == Config().Initial()[k].pc
      {
        initial := initial + [current.nodes[i].pc];
        i := i + 1;
      }
    }

    /** The sum of the windows before that of regex `id`. */
    method WindowOf(id: nat) returns (ofs: nat)
      requires id < |ncaps|
      ensures ofs == 2 * Base(ncaps, id)
    {
      ofs := 0;
      var i := 0;
      while i < id
        invariant 0 <= i <= id && ofs == Base(ncaps, i)
      {
        ofs := ofs + ncaps[i] + 1;
        i := i + 1;
      }
      ofs := 2 * ofs;
    }

    /** Copies the window of the regex that matched to the caller. */
    method PrepareMatched(capture: Capture) returns (ok: bool)
      requires Roomy() && |capture.vector| == store.slots
      modifies ovector
      ensures ok == (capture.id < |ncaps|)
      ensures ok ==> 2 * Base(ncaps, capture.id + 1) <= store.slots
                     && ovector[..] == Reported(capture.vector, ncaps, capture.id, ovector.Length)
    {
      if capture.id >= |ncaps| { return false; }
      var id := capture.id;
      BaseUpTo(ncaps, id + 1, |ncaps|);
      var ofs := WindowOf(id);
      var len := 2 * (ncaps[id] + 1);
      ghost var reported := Reported(capture.vector, ncaps, id, ovector.Length);
      var k := 0;
      while k < len
        invariant 0 <= k <= len && forall i :: 0 <= i < k ==> ovector[i] == reported[i]
      {
        ovector[k] := capture.vector[ofs + k];
        k := k + 1;
      }
      while k < ovector.Length
        invariant len <= k <= ovector.Length && forall i :: 0 <= i < k ==> ovector[i] == reported[i]
      {
        ovector[k] := -1;
        k := k + 1;
      }
      assert ovector[..] == reported;
      return true;
    }

    /** The range a caller finds in the ovector when the machine wants more input. */
    method PrepareTemp(list: Threads, ghost threads: seq<Thread>)
      requires Roomy() && Shows(store.all, list.nodes, threads) && Sized(store.all, store.slots) && ovector.Length >= 2
      modifies ovector
      ensures LeastStart(threads, ncaps, ovector[0]) && GreatestSlot1(threads, ovector[1], |threads|)
    {
      var lo, hi := -1, -1;
      var t := 0;
      while t < |list.nodes|
        invariant 0 <= t <= |list.nodes|
        invariant LeastSoFar(threads, ncaps, lo, t, 0) && GreatestSlot1(threads, hi, t)
      {
        var capture := list.nodes[t].capture;
        lo, hi := ThreadRange(capture, lo, hi, threads, t);
        t := t + 1;
      }
      ovector[0] := lo;
      ovector[1] := hi;
    }

    /** One thread: the least start of any window, and slot 1, which is read for
        every window. */
    method ThreadRange(capture: Capture, lo0: int, hi0: int, ghost threads: seq<Thread>, ghost t: nat)
        returns (lo: int, hi: int)
      requires Roomy() && t < |threads| && capture.vector == threads[t].vec && |capture.vector| == store.slots
      requires LeastSoFar(threads, ncaps, lo0, t, 0) && GreatestSlot1(threads, hi0, t)
      ensures LeastSoFar(threads, ncaps, lo, t + 1, 0) && GreatestSlot1(threads, hi, t + 1)
    {
      lo, hi := lo0, hi0;
      BaseGrows(ncaps, 0, |ncaps|);
      var ofs, i := 0, 0;
      while i < |ncaps|
        invariant 0 <= i <= |ncaps| && ofs == 2 * Base(ncaps, i)
        invariant LeastSoFar(threads, ncaps, lo, t, i)
        invariant hi == if i > 0 && capture.vector[1] != -1 && (hi0 == -1 || capture.vector[1] > hi0)
                  then capture.vector[1] else hi0
      {
        BaseGrows(ncaps, i, |ncaps|);
        ghost var before := lo;
        var b := capture.vector[ofs];
        if b != -1 && (lo == -1 || b < lo) { lo := b; }
        StartSeen(threads, ncaps, before, lo, t, i);
        b := capture.vector[1];
        if b != -1 && (hi == -1 || b > hi) { hi := b; }
        ofs := ofs + 2 * (ncaps[i] + 1);
        i := i + 1;
      }
      ThreadSeen(threads, ncaps, lo, t);
      Slot1Seen(threads, hi0, hi, t);
    }

    /** The verdict `v` as a caller sees it: the id of the match with its captures in
        the ovector, or the range to keep when more input is wanted. */
    ghost predicate Tells(v: Verdict, r: Answer, pair: Option<(int, int)>)
      reads ovector
    {
      Roomy() &&
      match v
      case Matched(h) =>
        && |h.vec| == store.slots
        && if h.id < |ncaps|
           then 2 * Base(ncaps, h.id + 1) <= store.slots && r == Found(h.id)
               && ovector[..] == Reported(h.vec, ncaps, h.id, ovector.Length)
           else r == Failed
      case Declined => r == Answer.Declined
      case Again(m) =>
        && (r == Answer.Again ==> ovector.Length >= 2 && LeastStart(m.list, ncaps, ovector[0])
                                  && GreatestSlot1(m.list, ovector[1], |m.list|))
        && match m.matched
           case None => r == Answer.Again && pair == None
           case Some(h) =>
             && |h.vec| == store.slots
             && if h.id < |ncaps|
                then 2 * Base(ncaps, h.id + 1) <= store.slots && r == Answer.Again
                     && pair == Some((h.vec[2 * Base(ncaps, h.id)], h.vec[2 * Base(ncaps, h.id) + 1]))
                else r == Failed
    }

    /** The end of a call: an answer, or the state for the next call. */
    method Close(eof: bool, sp: nat) returns (r: Answer, pair: Option<(int, int)>)
      requires Shape() && Roomy() && LeadWithin() && program.TagsUpTo(program.tag) && |done| == processed && !firstBuf
               && !ended
      requires Knows() && Carries(machine, current, next, matched) && machine.pos == processed + sp && sp <= |buffer|
      requires Fits(program.code, machine.list)
      modifies this`processed, this`done, this`ended, ovector
      ensures var m := machine;
              Tells(if m.matched.Some? && (eof || m.list == []) then Matched(m.matched.value)
                    else if eof then Verdict.Declined else Verdict.Again(m), r, pair)
      ensures r == Answer.Again ==> Valid() && !ended && done == old(done + buffer)[..machine.pos]
      ensures r == Answer.Again ==> !eof && (machine.matched.None? || machine.list != [])
      ensures r == Answer.Again && pair.Some? ==> current.nodes != []
      ensures r == Answer.Declined ==> ended
    {
      hide Shape, Knows, Ready, Held, AllLive, Reported, LeastStart, GreatestSlot1, GroupsFit;
      pair := None;
      BaseGrows(ncaps, 0, |ncaps|);
      if matched != null { MatchedSized(machine.list, current, next, matched); }
      if matched != null && (eof || current.nodes == []) {
        var ok := PrepareMatched(matched);
        r := if ok then Found(matched.id) else Failed;
        return;
      }
      if matched == null && eof {
        ended := true;
        return Answer.Declined, pair;
      }
      if matched != null {
        if matched.id >= |ncaps| { return Failed, pair; }
        BaseGrows(ncaps, matched.id, |ncaps|);
        var ofs := WindowOf(matched.id);
        pair := Some((matched.vector[ofs], matched.vector[ofs + 1]));
      }
      KeepState(sp);
      r := Answer.Again;
    }

    /** Keeps the state for the next call, and the range that call will need. */
    method KeepState(sp: nat)
      requires Shape() && Roomy() && LeadWithin() && program.TagsUpTo(program.tag) && |done| == processed && !firstBuf
      requires Knows() && Carries(machine, current, next, matched) && machine.pos == processed + sp && sp <= |buffer|
      requires ovector.Length >= 2 && Fits(program.code, machine.list)
      modifies this`processed, this`done, ovector
      ensures Valid() && done == old(done + buffer)[..machine.pos]
      ensures LeastStart(machine.list, ncaps, ovector[0]) && GreatestSlot1(machine.list, ovector[1], |machine.list|)
    {
      hide Shape, Knows, Ready, Held, AllLive, Reported, LeastStart, GreatestSlot1, GroupsFit, Roomy;
      processed := processed + sp;
      done := (done + buffer)[..processed];
      StoreSized(machine.list, current, next, matched);
      ProgramValid();
      PrepareTemp(current, machine.list);
    }

    lemma MatchedSized(list: seq<Thread>, clist: Threads, nlist: Threads, matched: Capture)
      requires Lined(list, clist, nlist, matched)
      ensures |matched.vector| == store.slots
    {
      MatchedHere(nlist, [], matched, Held(clist.nodes)) by { hide Held; }
      hide Held, Shows;
    }

    lemma StoreSized(list: seq<Thread>, clist: Threads, nlist: Threads, matched: Capture?)
      requires Lined(list, clist, nlist, matched)
      ensures Sized(store.all, store.slots)
    {
      hide Held, Shows, Sized;
    }

    /** The loop of one call. */
    method Process(eof: bool) returns (sp: nat)
      requires Shape() && Knows() && program.TagsUpTo(tag) && |done| == processed
      requires Carries(machine, current, next, matched) && machine.pos == processed
      modifies this`seenStart, this`tag, this`current, this`next, this`matched, this`machine, store, store.all,
               current, next, program, program.tags
      ensures program.TagsUpTo(program.tag) && machine == Config().Feed(done + buffer, eof, old(machine))
      ensures Carries(machine, current, next, matched) && machine.pos == processed + sp && sp <= |buffer|
              && |current.nodes| == |machine.list|
      ensures (current == old(current) && next == old(next)) || (current == old(next) && next == old(current))
      ensures fresh(store.all - old(store.all)) && old(store.all) <= store.all
    {
      hide *;
      var clist, nlist, pending;
      ghost var m;
      clist, nlist, pending, sp, m := Feed(current, next, matched, eof, done, machine);
      program.tag := tag;
      SameTag(tag);
      CarriesLength(m, clist, nlist, pending);
      current, next, matched, machine := clist, nlist, pending, m;
    }

    /** One call. */
    method Exec(input: seq<Byte>, eof: bool) returns (r: Answer, pair: Option<(int, int)>)
      requires Valid() && !ended
      modifies this, store, store.all, current, next, program, program.tags, ovector
      ensures old(machine.pos) <= |old(done) + input|
              && Tells(Config().Exec(old(done) + input, eof, old(machine)), r, pair)
      ensures r == Answer.Again ==>
        Valid() && !ended && Config().Exec(old(done) + input, eof, old(machine)) == Verdict.Again(machine)
            && done == (old(done) + input)[..machine.pos]
      ensures r == Answer.Declined ==> ended
      ensures r == Answer.Again ==> |current.nodes| <= |program.code| && (pair.Some? ==> current.nodes != [])
      ensures (current == old(current) && next == old(next)) || (current == old(next) && next == old(current))
      ensures fresh(store.all - old(store.all))
    {
      hide *;
      ghost var s, m := done + input, machine;
      ValidStarts();
      ExecIs(Config(), s, eof, m);
      Open(input);
      SameCode();
      FeedFits(Config(), s, eof, m);
      var sp := Process(eof);
      r, pair := Close(eof, sp);
      if r == Answer.Again { ValidFits(); }
    }

    lemma ProgramValid()
      requires Shape() && program.TagsUpTo(program.tag)
      ensures program.Valid()
    {
    }

    lemma SameCode()
      ensures Config().code == program.code
    {
    }

    lemma ValidFits()
      requires Valid()
      ensures |current.nodes| <= |program.code|
    {
      hide Shape, Roomy, LeadWithin, Ready, Knows, Carries, Fits;
      FitsLength(program.code, machine.list);
      if !firstBuf { CarriesLength(machine, current, next, matched); }
    }

    lemma ValidStarts()
      requires Valid()
      ensures machine.pos == processed == |done|
    {
    }

    lemma SameTag(t: nat)
      requires program.TagsUpTo(t) && t == program.tag
      ensures program.TagsUpTo(program.tag)
    {
    }

    lemma CarriesLength(m: Machine, clist: Threads, nlist: Threads, matched: Capture?)
      requires Carries(m, clist, nlist, matched)
      ensures |clist.nodes| == |m.list|
    {
    }

    lemma Handed(l: Threads, l': Threads, threads: seq<Thread>, m: multiset<Capture>)
      requires Ready(l, threads, m) && l'.nodes == []
      ensures Ready(l', [], m + Held(l.nodes)) && Shows(store.all, l.nodes, threads)
    {
      hide Counted, Freed, Sized, Store.Counts;
      HeldNone(m + Held(l.nodes));
    }

    /** Captures that are new, blank, and in flight. */
    method Fresh(clist: Threads, nlist: Threads, ghost m: multiset<Capture>) returns (capture: Capture)
      requires clist != nlist && clist.nodes == [] == nlist.nodes && Ready(nlist, [], m)
      modifies store, store.all
      ensures Ready(clist, [], m + multiset{capture}) && capture.vector == Blank(store.slots) && capture !in m
      ensures fresh(store.all - old(store.all)) && old(store.all) <= store.all
      ensures forall d :: d in m ==> d.vector == old(d.vector) && d.id == old(d.id)
      ensures store.lost == old(store.lost) && store.gone == old(store.gone)
    {
      hide Counted, Held, Freed, Sized, Store.Counts;
      HeldNone(m);
      HeldNone(multiset{});
      capture := store.Create(true, m);
      HeldNone(m + multiset{capture});
    }
  }

  /** Threads come from live instructions to live ones. */
  lemma {:induction false} AddLive(code: Code, at: Place, visited: set<nat>, threads: seq<Thread>, pc: nat,
                                   vec: seq<int>, stop: bool)
    requires WellTargeted(code) && Live(code, pc) && AllLive(code, threads)
    ensures AllLive(code, Add(code, at, visited, threads, pc, vec, stop).threads)
    decreases UpTo(|code|) - visited, if pc in visited then 1 else 0
  {
    LiveTargets(code, at, pc, vec);
    hide WellTargeted, Live, Waits, Onward;
    if pc in visited {
      if code[pc].Split? && code[pc].y !in visited { AddLive(code, at, visited, threads, code[pc].y, vec, stop); }
    } else {
      var seen := visited + {pc};
      if code[pc].Split? {
        AddLive(code, at, seen, threads, code[pc].x, vec, stop);
        var l := Add(code, at, seen, threads, code[pc].x, vec, stop);
        if l.hit.None? { AddLive(code, at, l.visited, l.threads, code[pc].y, vec, stop); }
      } else if !Waits(code[pc]) && Onward(code[pc], at, pc, vec).Some? {
        var t := Onward(code[pc], at, pc, vec).value;
        AddLive(code, at, seen, threads, t.pc, t.vec, stop);
      }
    }
  }

  lemma {:induction false} ThreadsLive(code: Code, c: Option<Byte>, there: Place, list: seq<Thread>,
                                       visited: set<nat>, next: seq<Thread>)
    requires WellTargeted(code) && AllLive(code, list) && AllLive(code, next)
    ensures AllLive(code, RunThreads(code, c, there, list, visited, next).threads)
    decreases |list|
  {
    hide WellTargeted, Live, Add;
    if list != [] {
      var t := list[0];
      assert AllLive(code, list[1..]);
      if t.pc < |code| && code[t.pc].Consuming() { NextConsumed(code, t.pc); }
      if t.pc < |code| && !code[t.pc].Match? && c.Some? && code[t.pc].Accepts(c.value) {
        AddLive(code, there, visited, next, t.pc + 1, t.vec, true);
        var r := Add(code, there, visited, next, t.pc + 1, t.vec, true);
        if r.hit.None? { ThreadsLive(code, c, there, list[1..], r.visited, r.threads); }
      } else {
        ThreadsLive(code, c, there, list[1..], visited, next);
      }
    }
  }

  lemma SameBytes(ctx: Setup, done: seq<Byte>, buffer: seq<Byte>, sp: nat, q: nat)
    requires sp <= q <= |buffer| && ctx.lead.Some?
    requires forall k :: sp <= k < q ==> !Hits(ctx.code, ctx.lead.value, buffer[k])
    requires q < |buffer| ==> Hits(ctx.code, ctx.lead.value, buffer[q])
    ensures var s := done + buffer;
            && (forall k :: |done| + sp <= k < |done| + q ==> !Hits(ctx.code, ctx.lead.value, s[k]))
            && (q < |buffer| ==> Hits(ctx.code, ctx.lead.value, s[|done| + q]))
  {
    hide Hits;
    forall k | |done| + sp <= k < |done| + q ensures !Hits(ctx.code, ctx.lead.value, (done + buffer)[k]) {
      assert (done + buffer)[k] == buffer[k - |done|];
    }
  }

  lemma SameByte(done: seq<Byte>, buffer: seq<Byte>, sp: nat)
    requires sp <= |buffer|
    ensures ByteAt(done + buffer, |done| + sp) == ByteAt(buffer, sp)
  {
  }

  /** One turn of the main loop. */
  lemma FeedUnfold(ctx: Setup, s: seq<Byte>, eof: bool, m: Machine)
    requires m.pos <= |s|
    ensures var j := ctx.Jump(s, m);
            ctx.Feed(s, eof, m) ==
              if !(m.pos < |s| || eof) || m.list == [] then m
              else if j.pos == |s| && m.pos < |s| then j
              else if j.pos == |s| then ctx.Advance(s, j)
              else ctx.Feed(s, eof, ctx.Advance(s, j))
  {
    hide PikeStream.Setup.Jump, PikeStream.Setup.Advance;
  }

  lemma ExecIs(ctx: Setup, s: seq<Byte>, eof: bool, m: Machine)
    requires m.pos <= |s|
    ensures ctx.Exec(s, eof, m) ==
            var r := ctx.Feed(s, eof, m);
            if r.matched.Some? && (eof || r.list == []) then Matched(r.matched.value)
            else if eof then Verdict.Declined else Verdict.Again(r)
  {
    hide PikeStream.Setup.Feed;
  }

  lemma JumpStays(ctx: Setup, s: seq<Byte>, m: Machine)
    requires m.pos <= |s| && (ctx.lead.None? || !m.seen)
    ensures ctx.Jump(s, m) == m
  {
  }

  lemma JumpFails(ctx: Setup, s: seq<Byte>, m: Machine)
    requires m.pos <= |s| && ctx.lead.Some? && m.seen && (m.pos == |s| || !ctx.LooksInitial(m.list))
    ensures ctx.Jump(s, m) == m.(seen := false)
  {
  }

  lemma JumpGoes(ctx: Setup, s: seq<Byte>, m: Machine, q: nat)
    requires m.pos < |s| && ctx.lead.Some? && m.seen && ctx.LooksInitial(m.list) && m.pos <= q <= |s|
    requires forall k :: m.pos <= k < q ==> !Hits(ctx.code, ctx.lead.value, s[k])
    requires q < |s| ==> Hits(ctx.code, ctx.lead.value, s[q])
    ensures ctx.Jump(s, m) == if q > m.pos then Machine(q, ctx.StartList(PlaceIn(s, q)), m.matched, true)
            else m.(seen := false)
  {
    var q' := ctx.FirstByte(s, m.pos);
    assert q' == q;
  }

  lemma StartLive(code: Code)
    requires WellTargeted(code)
    ensures Live(code, 0)
  {
  }

  lemma BeginIs(code: Code, at: Place, n: nat)
    requires |code| > 3 && code[0] == Split(3, 1)
    ensures var r := Add(code, at, {}, [], 0, Blank(n), false); r == Begin(code, at, n) && r.hit.None? && 0 in r.visited
  {
    hide Waits;
    BeginNeverHits(code, at, {}, [], 0, Blank(n));
  }

  lemma RunDone(code: Code, c: Option<Byte>, there: Place, visited: set<nat>, next: seq<Thread>)
    ensures RunThreads(code, c, there, [], visited, next) == Added(visited, next, None)
  {
  }

  lemma Turned(h: multiset<Capture>, o: multiset<Capture>, matched: Capture)
    ensures HeldBy(matched) + h + o == o + h + multiset{matched}
  {
  }

  lemma NoneTurned(h: multiset<Capture>, o: multiset<Capture>)
    ensures HeldBy(null) + h + o == o + h
  {
  }

  lemma HeldByNone()
    ensures HeldBy(null) == multiset{} && HitOf(null) == None
  {
  }

  lemma ByItself(c: Capture)
    ensures HeldBy(c) == multiset{c}
  {
  }

  lemma ShowsLength(all: set<Capture>, nodes: seq<Node>, threads: seq<Thread>)
    requires Shows(all, nodes, threads)
    ensures |nodes| == |threads|
  {
  }

  lemma HeldNone(m: multiset<Capture>)
    ensures Held([]) == multiset{} && m + Held([]) == m && multiset{} + m == m
  {
  }

  /** What the pending match holds. */
  ghost function HeldBy(c: Capture?): multiset<Capture> {
    if c == null then multiset{} else multiset{c}
  }

  /** The pending match as a value. */
  ghost function HitOf(c: Capture?): Option<Hit>
    reads c
  {
    if c == null then None else Some(Hit(c.id, c.vector))
  }

  predicate AllLive(code: Code, threads: seq<Thread>) {
    forall k :: 0 <= k < |threads| ==> Live(code, threads[k].pc)
  }

  lemma ByteIsAt(buffer: seq<Byte>, sp: nat)
    ensures ByteAt(buffer, sp) == if sp < |buffer| then Some(buffer[sp]) else None
  {
  }

  lemma NextConsumed(code: Code, pc: nat)
    requires WellTargeted(code) && Live(code, pc) && code[pc].Consuming()
    ensures Live(code, pc + 1)
  {
    assert Target(code[pc], pc, pc + 1);
  }

  lemma EitherHit(h: Option<Hit>, other: Option<Hit>)
    ensures OrElse(h, other) == if h.Some? then h else other
  {
  }

  lemma LiveTail(code: Code, threads: seq<Thread>)
    requires AllLive(code, threads) && threads != []
    ensures Live(code, threads[0].pc) && AllLive(code, threads[1..])
  {
    hide Live;
  }

  lemma OnlyConsumers(inst: Inst)
    ensures forall c: Byte :: inst.Accepts(c) ==> inst.Consuming()
  {
  }

  /** What RunThreads does with the first thread. */
  lemma RunOn(code: Code, c: Option<Byte>, there: Place, list: seq<Thread>, visited: set<nat>, next: seq<Thread>)
    requires list != [] && list[0].pc < |code|
    ensures var t, run := list[0], RunThreads(code, c, there, list, visited, next);
            if code[t.pc].Match? then run == Added(visited, next, Some(Hit(code[t.pc].id, t.vec)))
            else if c.Some? && code[t.pc].Accepts(c.value) then
              var r := Add(code, there, visited, next, t.pc + 1, t.vec, true);
              run == if r.hit.Some? then r else RunThreads(code, c, there, list[1..], r.visited, r.threads)
            else run == RunThreads(code, c, there, list[1..], visited, next)
  {
  }

  lemma Reordered(a: multiset<Capture>, b: multiset<Capture>, c: multiset<Capture>)
    ensures a + (b + c) == a + c + b
  {
  }

  lemma HeldAll(store: Store, m: multiset<Capture>, c: multiset<Capture>)
    requires store.Counts(m + c)
    ensures forall d :: d in c ==> d in store.all
  {
    forall d | d in c ensures d in store.all { assert d in m + c + store.lost; }
  }

  lemma SetIs(vec: seq<int>, group: nat, pos: int)
    ensures group < |vec| ==> SetCapture(vec, group, pos) == vec[group := pos]
  {
  }

  lemma Regroup(a: multiset<Capture>, b: multiset<Capture>, c: multiset<Capture>)
    ensures a + b + c == a + c + b
  {
  }

  lemma Regrouped(a: multiset<Capture>, b: multiset<Capture>, c: multiset<Capture>)
    ensures a + b + c == a + (b + c)
  {
  }

  lemma LiveIs(code: Code, pc: nat)
    requires Live(code, pc)
    ensures pc < |code|
  {
  }
}
