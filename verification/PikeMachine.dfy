/** The Pike VM on values (src/sregex/sre_vm_pike.c): thread lists in priority
    order, each thread with its captures.  The imperative machine in Pike.dfy is
    proved to compute these functions; their properties are proved in
    PikePriority.dfy, PikeLeftmost.dfy and PikeSkip.dfy. */
module PikeMachine {
  import opened Regexes
  import opened Bytecode
  import opened Finite

  datatype Option<T> = None | Some(value: T)

  function OrElse<T>(a: Option<T>, b: Option<T>): Option<T> {
    if a.Some? then a else b
  }

  datatype Thread = Thread(pc: nat, vec: seq<int>)

  /** A match: the regex id of the MATCH and the captures that reached it. */
  datatype Hit = Hit(id: nat, vec: seq<int>)

  /** All that the look-behind assertions can see of a position. */
  datatype Place = Place(pos: nat, start: bool, line: bool)

  function PlaceIn(s: seq<Byte>, p: nat): Place {
    Place(p, p == 0, p == 0 || (p <= |s| && s[p - 1] == NEWLINE))
  }

  predicate HoldsAt(a: Assertion, at: Place) {
    if a.BigA? then at.start else at.line
  }

  function ByteAt(s: seq<Byte>, p: nat): Option<Byte> {
    if p < |s| then Some(s[p]) else None
  }

  /** Instructions that wait on a list for the next byte. */
  predicate Waits(inst: Inst) {
    inst.Consuming() || inst.Match? || (inst.Look? && inst.assertion.LookAhead())
  }

  /** Where JMP, SAVE and the look-behind assertions go on at once, if they do. */
  function Onward(inst: Inst, at: Place, pc: nat, vec: seq<int>): Option<Thread> {
    match inst
    case Jmp(x) => Some(Thread(x, vec))
    case Save(g) => Some(Thread(pc + 1, SetCapture(vec, g, at.pos)))
    case Look(a) => if HoldsAt(a, at) then Some(Thread(pc + 1, vec)) else None
    case _ => None
  }

  datatype Added = Added(visited: set<nat>, threads: seq<Thread>, hit: Option<Hit>)

  /** Adds what can be reached from `pc` without consuming, in priority order.
      With `stop` set a MATCH ends the search; otherwise it waits on the list.
      A SPLIT that is met again while its second arm is still open takes that
      arm. */
  function Add(code: Code, at: Place, visited: set<nat>, threads: seq<Thread>, pc: nat, vec: seq<int>,
               stop: bool): (r: Added)
    ensures visited <= r.visited && threads <= r.threads
    decreases UpTo(|code|) - visited, if pc in visited then 1 else 0
  {
    if pc >= |code| then
      Added(visited, threads, None)
    else if pc in visited then
      if code[pc].Split? && code[pc].y !in visited then Add(code, at, visited, threads, code[pc].y, vec, stop)
      else Added(visited, threads, None)
    else
      var seen := visited + {pc};
      if code[pc].Split? then
        var r := Add(code, at, seen, threads, code[pc].x, vec, stop);
        if r.hit.Some? then r else Add(code, at, r.visited, r.threads, code[pc].y, vec, stop)
      else if code[pc].Match? && stop then
        Added(seen, threads, Some(Hit(code[pc].id, vec)))
      else if Waits(code[pc]) then
        Added(seen, threads + [Thread(pc, vec)], None)
      else
        match Onward(code[pc], at, pc, vec)
        case None => Added(seen, threads, None)
        case Some(t) => Add(code, at, seen, threads, t.pc, t.vec, stop)
  }

  /** Runs the threads of a list in order on the byte `c` (None at the end of the
      stream); the first match drops the threads behind it. */
  function RunThreads(code: Code, c: Option<Byte>, there: Place, list: seq<Thread>, visited: set<nat>,
                      next: seq<Thread>): (r: Added)
    ensures visited <= r.visited && next <= r.threads
    decreases |list|
  {
    if list == [] then Added(visited, next, None)
    else
      var t := list[0];
      if t.pc >= |code| then RunThreads(code, c, there, list[1..], visited, next)
      else if code[t.pc].Match? then Added(visited, next, Some(Hit(code[t.pc].id, t.vec)))
      else if c.Some? && code[t.pc].Accepts(c.value) then
        var r := Add(code, there, visited, next, t.pc + 1, t.vec, true);
        if r.hit.Some? then r else RunThreads(code, c, there, list[1..], r.visited, r.threads)
      else RunThreads(code, c, there, list[1..], visited, next)
  }

  /** One position of the stream. */
  function Step(code: Code, s: seq<Byte>, p: nat, list: seq<Thread>): Added {
    RunThreads(code, ByteAt(s, p), PlaceIn(s, p + 1), list, {}, [])
  }

  function Blank(n: nat): (vec: seq<int>)
    ensures |vec| == n && forall k :: 0 <= k < n ==> vec[k] == -1
  {
    seq(n, _ => -1)
  }

  /** The list the machine starts with at a place. */
  function Begin(code: Code, at: Place, n: nat): Added {
    Add(code, at, {}, [], 0, Blank(n), false)
  }

  /** The whole search, without the first-byte skip: `matched` is the best match
      so far, `list` holds what may still beat it. */
  function Scan(code: Code, s: seq<Byte>, p: nat, list: seq<Thread>, matched: Option<Hit>): Option<Hit>
    requires p <= |s|
    decreases |s| - p
  {
    if list == [] then matched
    else
      var r := Step(code, s, p, list);
      var m := OrElse(r.hit, matched);
      if p == |s| then m else Scan(code, s, p + 1, r.threads, m)
  }

  /** The answer for a whole stream, from a fresh context with `n` capture slots. */
  function Answer(code: Code, s: seq<Byte>, n: nat): Option<Hit> {
    Scan(code, s, 0, Begin(code, PlaceIn(s, 0), n).threads, None)
  }
}
