/** A thread list of Pike never holds more threads than the program has instructions
    (src/sregex/sre_vm_pike.c:756-942): a thread is only added at an instruction that has
    not been visited for the list. */
module PikeFits {
  import opened Regexes
  import opened Bytecode
  import opened Finite
  import opened PikeMachine
  import opened PikeStream

  /** Every thread is at an instruction visited, and no two at the same. */
  ghost predicate OncePer(code: Code, visited: set<nat>, threads: seq<Thread>) {
    && (forall k :: 0 <= k < |threads| ==> threads[k].pc in visited && threads[k].pc < |code|)
    && (forall j, k :: 0 <= j < k < |threads| ==> threads[j].pc != threads[k].pc)
  }

  ghost predicate Fits(code: Code, threads: seq<Thread>) {
    exists visited :: OncePer(code, visited, threads)
  }

  function Pcs(threads: seq<Thread>): (l: seq<nat>)
    ensures |l| == |threads| && forall k :: 0 <= k < |l| ==> l[k] == threads[k].pc
  {
    seq(|threads|, k requires 0 <= k < |threads| => threads[k].pc)
  }

  /** So there are no more threads than instructions visited, and than the program has. */
  lemma OncePerFits(code: Code, visited: set<nat>, threads: seq<Thread>)
    requires OncePer(code, visited, threads)
    ensures |threads| <= |visited| && |threads| <= |code|
  {
    var l := Pcs(threads);
    assert Elements(l) <= visited && Elements(l) <= UpTo(|code|);
    Smaller(Elements(l), visited);
    Smaller(Elements(l), UpTo(|code|));
  }

  lemma FitsLength(code: Code, threads: seq<Thread>)
    requires Fits(code, threads)
    ensures |threads| <= |code|
  {
    hide OncePer;
    var visited :| OncePer(code, visited, threads);
    OncePerFits(code, visited, threads);
  }

  lemma OneMore(code: Code, visited: set<nat>, threads: seq<Thread>, pc: nat, vec: seq<int>)
    requires OncePer(code, visited, threads) && pc < |code| && pc !in visited
    ensures OncePer(code, visited + {pc}, threads) && OncePer(code, visited + {pc}, threads + [Thread(pc, vec)])
  {
  }

  lemma {:induction false} AddOncePer(code: Code, at: Place, visited: set<nat>, threads: seq<Thread>, pc: nat,
                                      vec: seq<int>, stop: bool)
    requires OncePer(code, visited, threads)
    ensures var r := Add(code, at, visited, threads, pc, vec, stop); OncePer(code, r.visited, r.threads)
    decreases UpTo(|code|) - visited, if pc in visited then 1 else 0
  {
    hide Waits, Onward, OncePer;
    if pc < |code| {
      if pc in visited {
        if code[pc].Split? && code[pc].y !in visited { AddOncePer(code, at, visited, threads, code[pc].y, vec, stop); }
      } else {
        var seen := visited + {pc};
        OneMore(code, visited, threads, pc, vec);
        if code[pc].Split? {
          AddOncePer(code, at, seen, threads, code[pc].x, vec, stop);
          var l := Add(code, at, seen, threads, code[pc].x, vec, stop);
          if l.hit.None? { AddOncePer(code, at, l.visited, l.threads, code[pc].y, vec, stop); }
        } else if !Waits(code[pc]) && Onward(code[pc], at, pc, vec).Some? {
          var t := Onward(code[pc], at, pc, vec).value;
          AddOncePer(code, at, seen, threads, t.pc, t.vec, stop);
        }
      }
    }
  }

  /** The same for the list of the next position, whatever list is run. */
  lemma {:induction false} RunOncePer(code: Code, c: Option<Byte>, there: Place, list: seq<Thread>, visited: set<nat>,
                                      next: seq<Thread>)
    requires OncePer(code, visited, next)
    ensures var r := RunThreads(code, c, there, list, visited, next); OncePer(code, r.visited, r.threads)
    decreases |list|
  {
    hide Add, OncePer;
    if list != [] {
      var t := list[0];
      if t.pc < |code| && !code[t.pc].Match? && c.Some? && code[t.pc].Accepts(c.value) {
        AddOncePer(code, there, visited, next, t.pc + 1, t.vec, true);
        var r := Add(code, there, visited, next, t.pc + 1, t.vec, true);
        if r.hit.None? { RunOncePer(code, c, there, list[1..], r.visited, r.threads); }
      } else {
        RunOncePer(code, c, there, list[1..], visited, next);
      }
    }
  }

  lemma NonePer(code: Code)
    ensures OncePer(code, {}, [])
  {
  }

  lemma StartFits(ctx: Setup, at: Place)
    ensures Fits(ctx.code, ctx.StartList(at))
  {
    hide OncePer, Add;
    NonePer(ctx.code);
    AddOncePer(ctx.code, at, {}, [], 0, Blank(ctx.slots), false);
  }

  lemma AdvanceFits(ctx: Setup, s: seq<Byte>, m: Machine)
    requires m.pos <= |s|
    ensures Fits(ctx.code, ctx.Advance(s, m).list)
  {
    hide OncePer, RunThreads;
    NonePer(ctx.code);
    RunOncePer(ctx.code, ByteAt(s, m.pos), PlaceIn(s, m.pos + 1), m.list, {}, []);
  }

  lemma JumpFits(ctx: Setup, s: seq<Byte>, m: Machine)
    requires m.pos <= |s| && Fits(ctx.code, m.list)
    ensures Fits(ctx.code, ctx.Jump(s, m).list)
  {
    hide Fits, Setup.StartList, Setup.LooksInitial, Setup.FirstByte;
    if ctx.lead.Some? { StartFits(ctx, PlaceIn(s, ctx.FirstByte(s, m.pos))); }
  }

  /** Whatever is fed, with the jump and without. */
  lemma {:induction false} FeedFits(ctx: Setup, s: seq<Byte>, eof: bool, m: Machine)
    requires m.pos <= |s| && Fits(ctx.code, m.list)
    ensures Fits(ctx.code, ctx.Feed(s, eof, m).list)
    decreases |s| - m.pos
  {
    hide Fits, Setup.Jump, Setup.Advance;
    if (m.pos < |s| || eof) && m.list != [] {
      var j := ctx.Jump(s, m);
      JumpFits(ctx, s, m);
      AdvanceFits(ctx, s, j);
      if j.pos < |s| {
        AdvancePos(ctx, s, j);
        FeedFits(ctx, s, eof, ctx.Advance(s, j));
      }
    }
  }

  lemma AdvancePos(ctx: Setup, s: seq<Byte>, m: Machine)
    requires m.pos < |s|
    ensures ctx.Advance(s, m).pos == m.pos + 1
  {
    hide Step;
  }
}
