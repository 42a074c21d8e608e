/** How often the addition of threads drops captures without giving them back
    (src/sregex/sre_vm_pike.c:756-942): where an instruction has been visited already,
    and where a look-behind assertion does not hold. */
module PikeLost {
  import opened Regexes
  import opened Bytecode
  import opened Finite
  import opened PikeMachine

  /** ... along the recursion of Add. */
  function Lost(code: Code, at: Place, visited: set<nat>, threads: seq<Thread>, pc: nat, vec: seq<int>, stop: bool): nat
    decreases UpTo(|code|) - visited, if pc in visited then 1 else 0
  {
    if pc >= |code| then 1
    else if pc in visited then
      if code[pc].Split? && code[pc].y !in visited then Lost(code, at, visited, threads, code[pc].y, vec, stop) else 1
    else
      var seen := visited + {pc};
      if code[pc].Split? then
        var r := Add(code, at, seen, threads, code[pc].x, vec, stop);
        Lost(code, at, seen, threads, code[pc].x, vec, stop)
        + if r.hit.Some? then 0 else Lost(code, at, r.visited, r.threads, code[pc].y, vec, stop)
      else if Waits(code[pc]) then 0
      else
        match Onward(code[pc], at, pc, vec)
        case None => 1
        case Some(t) => Lost(code, at, seen, threads, t.pc, t.vec, stop)
  }

  /** ... along a list of threads. */
  function RunLost(code: Code, c: Option<Byte>, there: Place, list: seq<Thread>, visited: set<nat>,
                   next: seq<Thread>): nat
    decreases |list|
  {
    if list == [] then 0
    else
      var t := list[0];
      if t.pc >= |code| then RunLost(code, c, there, list[1..], visited, next)
      else if code[t.pc].Match? then 0
      else if c.Some? && code[t.pc].Accepts(c.value) then
        var r := Add(code, there, visited, next, t.pc + 1, t.vec, true);
        Lost(code, there, visited, next, t.pc + 1, t.vec, true)
        + if r.hit.Some? then 0 else RunLost(code, c, there, list[1..], r.visited, r.threads)
      else RunLost(code, c, there, list[1..], visited, next)
  }

  /** What Lost is at an instruction, without its recursion. */
  lemma LostHere(code: Code, at: Place, visited: set<nat>, threads: seq<Thread>, pc: nat, vec: seq<int>, stop: bool)
    requires pc < |code| && CodeLookAheadFree(code)
    ensures var n, seen := Lost(code, at, visited, threads, pc, vec, stop), visited + {pc};
            if pc in visited then
              n == if code[pc].Split? && code[pc].y !in visited
                  then Lost(code, at, visited, threads, code[pc].y, vec, stop)
                   else 1
            else
              match code[pc]
              case Jmp(x) => n == Lost(code, at, seen, threads, x, vec, stop)
              case Split(x, y) =>
                var l := Add(code, at, seen, threads, x, vec, stop);
                n == Lost(code, at, seen, threads, x, vec, stop)
                     + if l.hit.Some? then 0 else Lost(code, at, l.visited, l.threads, y, vec, stop)
              case Save(g) => n == Lost(code, at, seen, threads, pc + 1, SetCapture(vec, g, at.pos), stop)
              case Look(a) => n == if HoldsAt(a, at) then Lost(code, at, seen, threads, pc + 1, vec, stop) else 1
              case _ => n == 0
  {
    hide Add;
  }

  lemma RunLostOn(code: Code, c: Option<Byte>, there: Place, list: seq<Thread>, visited: set<nat>, next: seq<Thread>)
    requires list != [] && list[0].pc < |code|
    ensures var t, n := list[0], RunLost(code, c, there, list, visited, next);
            if code[t.pc].Match? then n == 0
            else if c.Some? && code[t.pc].Accepts(c.value) then
              var r := Add(code, there, visited, next, t.pc + 1, t.vec, true);
              n == Lost(code, there, visited, next, t.pc + 1, t.vec, true)
                   + if r.hit.Some? then 0 else RunLost(code, c, there, list[1..], r.visited, r.threads)
            else n == RunLost(code, c, there, list[1..], visited, next)
  {
    hide Add, Lost;
  }

  lemma RunLostNone(code: Code, c: Option<Byte>, there: Place, visited: set<nat>, next: seq<Thread>)
    ensures RunLost(code, c, there, [], visited, next) == 0
  {
  }
}
