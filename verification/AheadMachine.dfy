/** The Thompson VM with look-ahead assertions on values
    (src/sregex/sre_vm_thompson.c:63-345), for one call with eof set.

    A look-ahead assertion waits on the list until its position is processed; if it
    holds then, what follows it is added to the list being processed, under the mark of
    that list.  This can take back marks that the next list has set, so an instruction
    may come onto a list again, and a run need not end: `fuel` counts how many threads
    may still be run. */
module AheadMachine {
  import opened Regexes
  import opened Bytecode
  import opened Programs
  import opened Finite
  import opened Thompson

  /** A look-ahead assertion: put off until the next byte is there. */
  predicate Postponed(inst: Inst) {
    inst.Look? && inst.assertion.LookAhead()
  }

  predicate Waits(inst: Inst) {
    Listed(inst) || Postponed(inst)
  }

  /** Where an instruction leads without looking at the next byte, first choice first. */
  function Now(code: Code, s: seq<Byte>, p: nat, v: nat): seq<nat>
    requires v < |code|
  {
    match code[v]
    case Jmp(x) => [x]
    case Split(x, y) => [x, y]
    case Save(_) => [v + 1]
    case Look(a) => if !a.LookAhead() && Holds(a, s, p) then [v + 1] else []
    case _ => []
  }

  /** The marks of a list and the instructions on it. */
  datatype Seen = Seen(marked: set<nat>, list: seq<nat>)

  /** Follows everything in `todo`, depth first, as far as it is not marked yet. */
  function Work(code: Code, s: seq<Byte>, p: nat, marked: set<nat>, list: seq<nat>, todo: seq<nat>): (r: Seen)
    ensures marked <= r.marked && list <= r.list
    decreases UpTo(|code|) - marked, |todo|
  {
    if todo == [] then Seen(marked, list)
    else
      var pc, rest := todo[0], todo[1..];
      if pc >= |code| || pc in marked then Work(code, s, p, marked, list, rest)
      else if Waits(code[pc]) then Work(code, s, p, marked + {pc}, list + [pc], rest)
      else Work(code, s, p, marked + {pc}, list, Now(code, s, p, pc) + rest)
  }

  /** A position half done: the marks of the two lists, the lists, and how many threads
      of the first have been run. */
  datatype Walk = Walk(here: set<nat>, there: set<nat>, list: seq<nat>, next: seq<nat>, k: nat)

  /** One thread; None at a MATCH. */
  function RunOne(code: Code, s: seq<Byte>, p: nat, w: Walk): (r: Option<Walk>)
    requires w.k < |w.list|
    ensures r.Some? ==> r.value.k == w.k + 1 && w.list <= r.value.list && w.next <= r.value.next
  {
    var pc := w.list[w.k];
    if pc >= |code| then Some(w.(k := w.k + 1))
    else if code[pc].Match? then None
    else if Postponed(code[pc]) && Holds(code[pc].assertion, s, p) then
      var r := Work(code, s, p, w.here, w.list, [pc + 1]);
      Some(Walk(r.marked, w.there - r.marked, r.list, w.next, w.k + 1))
    else if p < |s| && code[pc].Consuming() && code[pc].Accepts(s[p]) then
      var r := Work(code, s, p + 1, w.there, w.next, [pc + 1]);
      Some(Walk(w.here - r.marked, r.marked, w.list, r.list, w.k + 1))
    else Some(w.(k := w.k + 1))
  }

  /** The lists change places. */
  function Onto(w: Walk): Walk {
    Walk(w.there, {}, w.next, [], 0)
  }

  datatype Option<T> = None | Some(value: T)

  datatype Course = Ended(status: Status) | Open(p: nat, walk: Walk)

  /** The search from position `p` on. */
  function Go(code: Code, s: seq<Byte>, p: nat, w: Walk, fuel: nat): (r: Course)
    requires p <= |s|
    ensures r.Open? ==> p <= r.p <= |s|
    decreases |s| - p, fuel
  {
    if w.list == [] then Ended(DECLINED)
    else if w.k < |w.list| then
      if fuel == 0 then Open(p, w)
      else
        match RunOne(code, s, p, w)
        case None => Ended(OK)
        case Some(w') => Go(code, s, p, w', fuel - 1)
    else if p == |s| then Ended(DECLINED)
    else Go(code, s, p + 1, Onto(w), fuel)
  }

  function Start(code: Code, s: seq<Byte>): Walk {
    var r := Work(code, s, 0, {}, [], [0]);
    Walk(r.marked, {}, r.list, [], 0)
  }

  /** A whole stream in one call, with at most `fuel` threads. */
  function SearchAhead(code: Code, s: seq<Byte>, fuel: nat): Course {
    Go(code, s, 0, Start(code, s), fuel)
  }

  /** Some amount of fuel is enough. */
  ghost predicate Ends(code: Code, s: seq<Byte>) {
    exists fuel: nat :: SearchAhead(code, s, fuel).Ended?
  }

  /** One turn of the loops. */
  lemma GoOn(code: Code, s: seq<Byte>, p: nat, w: Walk, fuel: nat)
    requires p <= |s|
    ensures Go(code, s, p, w, fuel) ==
            if w.list == [] then Ended(DECLINED)
            else if w.k < |w.list| then
              if fuel == 0 then Open(p, w)
              else if RunOne(code, s, p, w).None? then Ended(OK)
              else Go(code, s, p, RunOne(code, s, p, w).value, fuel - 1)
            else if p == |s| then Ended(DECLINED)
            else Go(code, s, p + 1, Onto(w), fuel)
  {
    hide RunOne;
  }

  /** More fuel does not change an answer. */
  lemma {:induction false} GoMore(code: Code, s: seq<Byte>, p: nat, w: Walk, fuel: nat, more: nat)
    requires p <= |s| && fuel <= more && Go(code, s, p, w, fuel).Ended?
    ensures Go(code, s, p, w, more) == Go(code, s, p, w, fuel)
    decreases |s| - p, fuel
  {
    hide RunOne;
    if w.list != [] {
      if w.k < |w.list| {
        if RunOne(code, s, p, w).Some? { GoMore(code, s, p, RunOne(code, s, p, w).value, fuel - 1, more - 1); }
      } else if p < |s| {
        GoMore(code, s, p + 1, Onto(w), fuel, more);
      }
    }
  }

  lemma Shifted(a: seq<nat>, b: seq<nat>, now: seq<nat>)
    requires a != []
    ensures (a + b)[0] == a[0] && (a + b)[1..] == a[1..] + b && now + (a[1..] + b) == (now + a[1..]) + b
  {
  }

  /** What is left over goes on where the rest stopped. */
  lemma {:induction false} WorkTwice(code: Code, s: seq<Byte>, p: nat, marked: set<nat>, list: seq<nat>, a: seq<nat>,
                                     b: seq<nat>)
    ensures var r := Work(code, s, p, marked, list, a);
            Work(code, s, p, marked, list, a + b) == Work(code, s, p, r.marked, r.list, b)
    decreases UpTo(|code|) - marked, |a|
  {
    hide Waits, Now;
    if a == [] {
      assert a + b == b;
    } else {
      var pc, rest := a[0], a[1..];
      var now := if pc < |code| then Now(code, s, p, pc) else [];
      Shifted(a, b, now);
      if pc >= |code| || pc in marked {
        WorkTwice(code, s, p, marked, list, rest, b);
      } else if Waits(code[pc]) {
        WorkTwice(code, s, p, marked + {pc}, list + [pc], rest, b);
      } else {
        WorkTwice(code, s, p, marked + {pc}, list, now + rest, b);
      }
    }
  }

  /* Following, one instruction at a time. */

  lemma Hop(code: Code, s: seq<Byte>, p: nat, m: set<nat>, l: seq<nat>, pc: nat, rest: seq<nat>)
    requires pc < |code|
    ensures pc in m ==> Work(code, s, p, m, l, [pc] + rest) == Work(code, s, p, m, l, rest)
    ensures pc !in m && Waits(code[pc]) ==>
            Work(code, s, p, m, l, [pc] + rest) == Work(code, s, p, m + {pc}, l + [pc], rest)
    ensures pc !in m && !Waits(code[pc]) ==>
              Work(code, s, p, m, l, [pc] + rest) == Work(code, s, p, m + {pc}, l, Now(code, s, p, pc) + rest)
  {
    hide Waits, Now;
    assert ([pc] + rest)[1..] == rest;
  }

  lemma HopSplit(code: Code, s: seq<Byte>, p: nat, m: set<nat>, l: seq<nat>, pc: nat, x: nat, y: nat, rest: seq<nat>)
    requires pc < |code| && code[pc] == Split(x, y) && pc !in m
    ensures Work(code, s, p, m, l, [pc] + rest) == Work(code, s, p, m + {pc}, l, [x] + ([y] + rest))
  {
    hide Work;
    Hop(code, s, p, m, l, pc, rest);
    assert [x, y] + rest == [x] + ([y] + rest);
  }

  lemma HopOn(code: Code, s: seq<Byte>, p: nat, m: set<nat>, l: seq<nat>, pc: nat, x: nat, rest: seq<nat>)
    requires pc < |code| && pc !in m && (code[pc] == Jmp(x) || (code[pc].Save? && x == pc + 1))
    ensures Work(code, s, p, m, l, [pc] + rest) == Work(code, s, p, m + {pc}, l, [x] + rest)
  {
    hide Work;
    Hop(code, s, p, m, l, pc, rest);
  }

  lemma HopList(code: Code, s: seq<Byte>, p: nat, m: set<nat>, l: seq<nat>, pc: nat, rest: seq<nat>)
    requires pc < |code| && pc !in m && (code[pc].Consuming() || code[pc] == Look(SmallB))
    ensures Work(code, s, p, m, l, [pc] + rest) == Work(code, s, p, m + {pc}, l + [pc], rest)
  {
    hide Work;
    Hop(code, s, p, m, l, pc, rest);
  }

  /** What is marked already is passed over. */
  lemma HopOver(code: Code, s: seq<Byte>, p: nat, m: set<nat>, l: seq<nat>, pc: nat, rest: seq<nat>)
    requires pc < |code| && pc in m
    ensures Work(code, s, p, m, l, [pc] + rest) == Work(code, s, p, m, l, rest)
  {
    hide Work;
    Hop(code, s, p, m, l, pc, rest);
  }

  lemma Done(code: Code, s: seq<Byte>, p: nat, m: set<nat>, l: seq<nat>)
    ensures Work(code, s, p, m, l, []) == Seen(m, l)
  {
  }

  lemma Alone(x: nat)
    ensures [x] + [] == [x] && [] + [x] == [x]
  {
  }

  /* What the lists mean. */

  lemma NowIsEps(code: Code, s: seq<Byte>, p: nat, v: nat, w: nat)
    requires v < |code|
    ensures w in Now(code, s, p, v) <==> Eps(code, s, p, v, w) && !Postponed(code[v])
  {
    EpsTargets(code, s, p, v);
    hide Eps, Holds;
  }

  /** Everything in `after` that was not in `before` is followed as far as it can be
      without looking at the next byte. */
  ghost predicate Followed(code: Code, s: seq<Byte>, p: nat, before: set<nat>, after: set<nat>) {
    forall v, w :: v in after && v !in before && v < |code| && w in Now(code, s, p, v) ==> w in after
  }

  /** Everything visited that waits is on the list; it may be there twice. */
  ghost predicate Holding(code: Code, list: seq<nat>, seen: set<nat>) {
    forall v: nat :: v in seen && v < |code| && Waits(code[v]) ==> v in list
  }

  /** What is on the list waits there, and some run leads to it. */
  ghost predicate Reasoned(code: Code, s: seq<Byte>, p: nat, list: seq<nat>) {
    forall i :: 0 <= i < |list| ==> Live(code, list[i]) && Waits(code[list[i]]) && At(code, s, p, list[i])
  }

  /** What a list stands for: `seen` is what has ever been visited for it, of which
      the marks are a part. */
  ghost predicate Stands(code: Code, s: seq<Byte>, p: nat, list: seq<nat>, marked: set<nat>, seen: set<nat>) {
    marked <= seen && Holding(code, list, seen) && Reasoned(code, s, p, list)
  }

  ghost predicate AllReached(code: Code, s: seq<Byte>, p: nat, todo: seq<nat>) {
    forall i :: 0 <= i < |todo| ==> Live(code, todo[i]) && At(code, s, p, todo[i])
  }

  lemma StandsMore(code: Code, s: seq<Byte>, p: nat, list: seq<nat>, marked: set<nat>, seen: set<nat>, pc: nat)
    requires Stands(code, s, p, list, marked, seen) && Live(code, pc) && At(code, s, p, pc)
    ensures Stands(code, s, p, if Waits(code[pc]) then list + [pc] else list, marked + {pc}, seen + {pc})
  {
    hide Live, At, Waits;
    LiveInside(code, pc);
  }

  lemma AllReachedMore(code: Code, s: seq<Byte>, p: nat, todo: seq<nat>)
    requires WellTargeted(code) && AllReached(code, s, p, todo) && todo != []
    ensures todo[0] < |code| && Live(code, todo[0]) && At(code, s, p, todo[0]) && AllReached(code, s, p, todo[1..])
    ensures AllReached(code, s, p, Now(code, s, p, todo[0]) + todo[1..])
  {
    hide Live, At, Now, Eps, WellTargeted;
    var pc := todo[0];
    LiveInside(code, pc);
    var now := Now(code, s, p, pc);
    forall i | 0 <= i < |now| ensures Live(code, now[i]) && At(code, s, p, now[i]) {
      assert now[i] in now;
      NowIsEps(code, s, p, pc, now[i]);
      FollowLive(code, s, p, pc, now[i]);
    }
  }

  lemma FollowedMore(code: Code, s: seq<Byte>, p: nat, seen: set<nat>, after: set<nat>, pc: nat)
    requires pc < |code| && Followed(code, s, p, seen + {pc}, after) && forall w :: w in Now(code, s, p, pc) ==>
             w in after
    ensures Followed(code, s, p, seen, after)
  {
    hide Now;
  }

  /** Following keeps what a list stands for, and leaves nothing out. */
  lemma {:induction false} WorkStands(code: Code, s: seq<Byte>, p: nat, marked: set<nat>, list: seq<nat>,
                                      todo: seq<nat>, seen: set<nat>)
    requires WellTargeted(code) && Stands(code, s, p, list, marked, seen) && AllReached(code, s, p, todo)
    ensures var r := Work(code, s, p, marked, list, todo);
            && Stands(code, s, p, r.list, r.marked, seen + r.marked) && Followed(code, s, p, seen, seen + r.marked)
            && (forall v :: v in todo ==> v in r.marked)
    decreases UpTo(|code|) - marked, |todo|
  {
    hide Waits, Now, WellTargeted, Stands, AllReached, Followed, Live, At;
    if todo == [] {
      FollowedNothing(code, s, p, marked, list, seen);
    } else {
      var pc, rest := todo[0], todo[1..];
      AllReachedMore(code, s, p, todo);
      var r := Work(code, s, p, marked, list, todo);
      if pc in marked {
        WorkStands(code, s, p, marked, list, rest, seen);
      } else {
        StandsMore(code, s, p, list, marked, seen, pc);
        assert seen + {pc} + r.marked == seen + r.marked by { MarksFirst(code, s, p, marked, list, todo); }
        if Waits(code[pc]) {
          WorkStands(code, s, p, marked + {pc}, list + [pc], rest, seen + {pc});
          WaitsNowhere(code, s, p, pc);
        } else {
          WorkStands(code, s, p, marked + {pc}, list, Now(code, s, p, pc) + rest, seen + {pc});
          assert forall w :: w in Now(code, s, p, pc) ==> w in Now(code, s, p, pc) + rest;
        }
        FollowedMore(code, s, p, seen, seen + r.marked, pc);
      }
    }
  }

  lemma MarksFirst(code: Code, s: seq<Byte>, p: nat, marked: set<nat>, list: seq<nat>, todo: seq<nat>)
    requires todo != [] && todo[0] < |code|
    ensures todo[0] in Work(code, s, p, marked, list, todo).marked
  {
    hide Waits, Now;
  }

  lemma WaitsNowhere(code: Code, s: seq<Byte>, p: nat, v: nat)
    requires v < |code| && Waits(code[v])
    ensures Now(code, s, p, v) == []
  {
  }

  lemma FollowedNothing(code: Code, s: seq<Byte>, p: nat, marked: set<nat>, list: seq<nat>, seen: set<nat>)
    requires Stands(code, s, p, list, marked, seen)
    ensures Stands(code, s, p, list, marked, seen + marked) && Followed(code, s, p, seen, seen + marked)
  {
    hide Now, Waits;
    assert seen + marked == seen;
  }

  /** Where the bytes before lead is visited. */
  ghost predicate Arrived(code: Code, s: seq<Byte>, p: nat, seen: set<nat>) {
    && (p == 0 ==> 0 in seen)
    && forall u: nat :: u < |code| && 0 < p <= |s| && At(code, s, p - 1, u) && code[u].Consuming()
                        && code[u].Accepts(s[p - 1]) ==>
         u + 1 in seen
  }

  /** A thread has been run: it did not match, and where it leads is visited. */
  ghost predicate Ran(code: Code, s: seq<Byte>, p: nat, pc: nat, seen: set<nat>, ahead: set<nat>) {
    && pc < |code| && !code[pc].Match?
    && (p < |s| && code[pc].Consuming() && code[pc].Accepts(s[p]) ==> pc + 1 in ahead)
    && (Postponed(code[pc]) && Holds(code[pc].assertion, s, p) ==> pc + 1 in seen)
  }

  ghost predicate AllRan(code: Code, s: seq<Byte>, p: nat, list: seq<nat>, k: nat, seen: set<nat>, ahead: set<nat>) {
    k <= |list| && forall i :: 0 <= i < k ==> Ran(code, s, p, list[i], seen, ahead)
  }

  lemma RanMore(code: Code, s: seq<Byte>, p: nat, list: seq<nat>, list': seq<nat>, k: nat,
                seen: set<nat>, ahead: set<nat>, seen': set<nat>, ahead': set<nat>)
    requires AllRan(code, s, p, list, k, seen, ahead) && list <= list' && seen <= seen' && ahead <= ahead' && k < |list|
    requires Ran(code, s, p, list[k], seen', ahead')
    ensures AllRan(code, s, p, list', k + 1, seen', ahead')
  {
    hide Postponed, Holds;
    forall i | 0 <= i < k + 1 ensures Ran(code, s, p, list'[i], seen', ahead') {
      assert list'[i] == list[i];
      if i < k { assert Ran(code, s, p, list[i], seen, ahead); }
    }
  }

  /** When every thread has been run, everything a run can be at has been visited. */
  lemma {:induction false} Complete(code: Code, s: seq<Byte>, p: nat, list: seq<nat>, seen: set<nat>, ahead: set<nat>,
                                    v: nat, n: nat)
    requires p <= |s| && Arrived(code, s, p, seen) && Followed(code, s, p, {}, seen) && Holding(code, list, seen)
    requires AllRan(code, s, p, list, |list|, seen, ahead)
    requires Run(code, s, 0, |code|, Conf(0, 0, []), Conf(v, p, []), n)
    ensures v in seen
    decreases n
  {
    hide *;
    if n == 0 {
      Nowhere(code, s, v, p, seen);
    } else {
      var u, o := LastStep(code, s, v, p, n);
      IsAt(code, s, u, o, n - 1);
      if o == p {
        Complete(code, s, p, list, seen, ahead, u, n - 1);
        if Postponed(code[u]) { HeldOn(code, s, p, list, seen, ahead, u, v); }
        else { FollowedOn(code, s, p, seen, u, v); }
      } else {
        ArrivedAt(code, s, p, seen, u);
      }
    }
  }

  lemma Nowhere(code: Code, s: seq<Byte>, v: nat, p: nat, seen: set<nat>)
    requires Run(code, s, 0, |code|, Conf(0, 0, []), Conf(v, p, []), 0) && Arrived(code, s, p, seen)
    ensures v in seen
  {
    hide At;
  }

  lemma IsAt(code: Code, s: seq<Byte>, v: nat, p: nat, n: nat)
    requires Run(code, s, 0, |code|, Conf(0, 0, []), Conf(v, p, []), n)
    ensures At(code, s, p, v)
  {
    hide Run;
  }

  lemma ArrivedAt(code: Code, s: seq<Byte>, p: nat, seen: set<nat>, u: nat)
    requires 0 < p <= |s| && Arrived(code, s, p, seen) && u < |code| && At(code, s, p - 1, u)
    requires code[u].Consuming() && code[u].Accepts(s[p - 1])
    ensures u + 1 in seen
  {
    hide At;
  }

  lemma FollowedOn(code: Code, s: seq<Byte>, p: nat, seen: set<nat>, u: nat, v: nat)
    requires Followed(code, s, p, {}, seen) && u in seen && u < |code| && !Postponed(code[u]) && Eps(code, s, p, u, v)
    ensures v in seen
  {
    NowIsEps(code, s, p, u, v);
    hide Eps, Now;
  }

  lemma HeldOn(code: Code, s: seq<Byte>, p: nat, list: seq<nat>, seen: set<nat>, ahead: set<nat>, u: nat, v: nat)
    requires Holding(code, list, seen) && AllRan(code, s, p, list, |list|, seen, ahead) && u in seen && u < |code|
    requires Postponed(code[u]) && Eps(code, s, p, u, v)
    ensures v in seen
  {
    EpsTargets(code, s, p, u);
    hide Eps, Holds;
    var i :| 0 <= i < |list| && list[i] == u;
    assert Ran(code, s, p, list[i], seen, ahead);
  }

  /** A finished position: no match ends here, and where its byte leads is visited. */
  lemma PositionDone(code: Code, s: seq<Byte>, p: nat, list: seq<nat>, seen: set<nat>, ahead: set<nat>)
    requires p <= |s| && Arrived(code, s, p, seen) && Followed(code, s, p, {}, seen) && Holding(code, list, seen)
    requires AllRan(code, s, p, list, |list|, seen, ahead)
    ensures !Accepting(code, s, p)
    ensures p < |s| ==> Arrived(code, s, p + 1, ahead)
    ensures forall u: nat :: u < |code| && Listed(code[u]) && At(code, s, p, u) ==> u in list
  {
    AcceptingIsAt(code, s, p);
    hide Accepting, Followed;
    forall u: nat | u < |code| && Listed(code[u]) && At(code, s, p, u)
      ensures u in list && Ran(code, s, p, u, seen, ahead)
    {
      var n: nat :| Run(code, s, 0, |code|, Conf(0, 0, []), Conf(u, p, []), n);
      Complete(code, s, p, list, seen, ahead, u, n);
      var i :| 0 <= i < |list| && list[i] == u;
      assert Ran(code, s, p, list[i], seen, ahead);
    }
  }

  /** With nothing on the list there is nothing to come. */
  lemma NothingToCome(code: Code, s: seq<Byte>, p: nat, seen: set<nat>, ahead: set<nat>, end: nat)
    requires p <= |s| && Arrived(code, s, p, seen) && Followed(code, s, p, {}, seen) && Holding(code, [], seen)
    requires !AcceptsBefore(code, s, p)
    ensures !AcceptsBefore(code, s, end)
  {
    PositionDone(code, s, p, [], seen, ahead);
    hide Accepting, Followed, Arrived, Holding;
    forall q: nat | q > p ensures !Accepting(code, s, q) {
      AcceptingIsAt(code, s, q);
      if v: nat :| v < |code| && code[v].Match? && At(code, s, q, v) {
        var n: nat :| Run(code, s, 0, |code|, Conf(0, 0, []), Conf(v, q, []), n);
        var u := Crossing(code, s, v, q, p, n);
        assert false;
      }
    }
  }

  /** The invariant of a position: `seen` and `ahead` are what has ever been visited
      for the two lists. */
  ghost predicate Steady(code: Code, s: seq<Byte>, p: nat, w: Walk, seen: set<nat>, ahead: set<nat>) {
    && p <= |s| && Stands(code, s, p, w.list, w.here, seen) && Stands(code, s, p + 1, w.next, w.there, ahead)
    && Followed(code, s, p, {}, seen) && Followed(code, s, p + 1, {}, ahead)
    && Arrived(code, s, p, seen) && AllRan(code, s, p, w.list, w.k, seen, ahead)
  }

  lemma FollowedTwice(code: Code, s: seq<Byte>, p: nat, a: set<nat>, b: set<nat>)
    requires Followed(code, s, p, {}, a) && Followed(code, s, p, a, b) && a <= b
    ensures Followed(code, s, p, {}, b)
  {
    hide Now;
  }

  lemma FewerMarks(code: Code, s: seq<Byte>, p: nat, list: seq<nat>, marked: set<nat>, marked': set<nat>,
                   seen: set<nat>)
    requires Stands(code, s, p, list, marked, seen) && marked' <= marked
    ensures Stands(code, s, p, list, marked', seen)
  {
  }

  lemma StillArrived(code: Code, s: seq<Byte>, p: nat, seen: set<nat>, seen': set<nat>)
    requires Arrived(code, s, p, seen) && seen <= seen'
    ensures Arrived(code, s, p, seen')
  {
    hide At;
  }

  lemma OneReached(code: Code, s: seq<Byte>, p: nat, pc: nat)
    requires Live(code, pc) && At(code, s, p, pc)
    ensures AllReached(code, s, p, [pc])
  {
    hide Live, At;
  }

  /** What a thread on the list is. */
  lemma ThreadIs(code: Code, s: seq<Byte>, p: nat, list: seq<nat>, marked: set<nat>, seen: set<nat>, k: nat)
    requires Stands(code, s, p, list, marked, seen) && k < |list|
    ensures list[k] < |code| && Live(code, list[k]) && Waits(code[list[k]]) && At(code, s, p, list[k])
  {
    hide At;
  }

  lemma AheadFollows(code: Code, s: seq<Byte>, p: nat, pc: nat)
    requires WellTargeted(code) && pc < |code| && Live(code, pc) && At(code, s, p, pc)
    requires Postponed(code[pc]) && Holds(code[pc].assertion, s, p)
    ensures Live(code, pc + 1) && At(code, s, p, pc + 1)
  {
    EpsTargets(code, s, p, pc);
    hide At, Live, WellTargeted, Eps, Holds;
    FollowLive(code, s, p, pc, pc + 1);
  }

  lemma RanIdle(code: Code, s: seq<Byte>, p: nat, pc: nat, seen: set<nat>, ahead: set<nat>)
    requires pc < |code| && !code[pc].Match?
    requires p < |s| && code[pc].Consuming() && code[pc].Accepts(s[p]) ==> pc + 1 in ahead
    requires Postponed(code[pc]) && Holds(code[pc].assertion, s, p) ==> pc + 1 in seen
    ensures Ran(code, s, p, pc, seen, ahead)
  {
    hide Holds;
  }

  lemma EitherOr(inst: Inst)
    ensures Postponed(inst) ==> inst.Look? && !inst.Consuming() && !inst.Match?
  {
  }

  /** Every thread keeps the invariant; a MATCH stops at a position that accepts. */
  lemma StepSteady(code: Code, s: seq<Byte>, p: nat, w: Walk, seen: set<nat>, ahead: set<nat>)
    requires WellTargeted(code) && Steady(code, s, p, w, seen, ahead) && w.k < |w.list|
    ensures match RunOne(code, s, p, w)
            case None => Accepting(code, s, p)
            case Some(w') => Steady(code, s, p, w', seen + w'.here, ahead + w'.there)
  {
    hide Stands, Followed, Arrived, AllRan, Waits, Postponed, Live, At, WellTargeted, Holds, Accepting, Ran,
        AllReached, Work;
    var pc := w.list[w.k];
    ThreadIs(code, s, p, w.list, w.here, seen, w.k);
    EitherOr(code[pc]);
    assert seen + w.here == seen by { StandsWithin(code, s, p, w.list, w.here, seen); }
    assert ahead + w.there == ahead by { StandsWithin(code, s, p + 1, w.next, w.there, ahead); }
    if code[pc].Match? {
      AcceptingHere(code, s, p, pc);
    } else if Postponed(code[pc]) && Holds(code[pc].assertion, s, p) {
      AheadFollows(code, s, p, pc);
      OneReached(code, s, p, pc + 1);
      WorkStands(code, s, p, w.here, w.list, [pc + 1], seen);
      var r := Work(code, s, p, w.here, w.list, [pc + 1]);
      FollowedTwice(code, s, p, seen, seen + r.marked);
      StillArrived(code, s, p, seen, seen + r.marked);
      FewerMarks(code, s, p + 1, w.next, w.there, w.there - r.marked, ahead);
      assert pc + 1 in [pc + 1] && ahead + (w.there - r.marked) == ahead;
      RanIdle(code, s, p, pc, seen + r.marked, ahead);
      RanMore(code, s, p, w.list, r.list, w.k, seen, ahead, seen + r.marked, ahead);
    } else if p < |s| && code[pc].Consuming() && code[pc].Accepts(s[p]) {
      Consumed(code, s, p, pc);
      OneReached(code, s, p + 1, pc + 1);
      WorkStands(code, s, p + 1, w.there, w.next, [pc + 1], ahead);
      var r := Work(code, s, p + 1, w.there, w.next, [pc + 1]);
      FollowedTwice(code, s, p + 1, ahead, ahead + r.marked);
      FewerMarks(code, s, p, w.list, w.here, w.here - r.marked, seen);
      assert pc + 1 in [pc + 1] && seen + (w.here - r.marked) == seen;
      RanIdle(code, s, p, pc, seen, ahead + r.marked);
      RanMore(code, s, p, w.list, w.list, w.k, seen, ahead, seen, ahead + r.marked);
    } else {
      RanIdle(code, s, p, pc, seen, ahead);
      RanMore(code, s, p, w.list, w.list, w.k, seen, ahead, seen, ahead);
    }
  }

  lemma StandsWithin(code: Code, s: seq<Byte>, p: nat, list: seq<nat>, marked: set<nat>, seen: set<nat>)
    requires Stands(code, s, p, list, marked, seen)
    ensures seen + marked == seen && Holding(code, list, seen)
  {
    hide Holding, Reasoned;
  }

  lemma AcceptingHere(code: Code, s: seq<Byte>, p: nat, v: nat)
    requires v < |code| && code[v].Match? && At(code, s, p, v)
    ensures Accepting(code, s, p)
  {
    AcceptingIsAt(code, s, p);
    hide Accepting, At;
  }

  /** At the start, and when the lists change places. */
  lemma StartSteady(code: Code, s: seq<Byte>)
    requires WellTargeted(code)
    ensures var w := Start(code, s); Steady(code, s, 0, w, w.here, {})
  {
    hide WellTargeted, At, Live, Work, Waits, Now, AllReached;
    StartHere(code, s);
    LiveFirst(code);
    OneReached(code, s, 0, 0);
    WorkStands(code, s, 0, {}, [], [0], {});
    var r := Work(code, s, 0, {}, [], [0]);
    assert {} + r.marked == r.marked && 0 in [0];
  }

  lemma OntoSteady(code: Code, s: seq<Byte>, p: nat, w: Walk, seen: set<nat>, ahead: set<nat>)
    requires Steady(code, s, p, w, seen, ahead) && w.k == |w.list| && p < |s|
    ensures Steady(code, s, p + 1, Onto(w), ahead, {}) && !Accepting(code, s, p)
  {
    hide At, Live, Waits, Now, Accepting, Ran;
    StandsWithin(code, s, p, w.list, w.here, seen);
    PositionDone(code, s, p, w.list, seen, ahead);
  }

  /** An answer that is given is right. */
  lemma {:induction false} GoRight(code: Code, s: seq<Byte>, p: nat, w: Walk, seen: set<nat>, ahead: set<nat>,
                                   fuel: nat)
    requires WellTargeted(code) && Steady(code, s, p, w, seen, ahead) && !AcceptsBefore(code, s, p)
             && (w.list == [] ==> w.k == 0)
    ensures var r := Go(code, s, p, w, fuel);
            r.Ended? ==> r.status == if AcceptsBefore(code, s, |s| + 1) then OK else DECLINED
    decreases |s| - p, fuel
  {
    hide WellTargeted, Steady, AcceptsBefore, Accepting, RunOne;
    SteadyParts(code, s, p, w, seen, ahead);
    if w.list == [] {
      NothingToCome(code, s, p, seen, ahead, |s| + 1);
    } else if w.k < |w.list| {
      if fuel > 0 {
        StepSteady(code, s, p, w, seen, ahead);
        match RunOne(code, s, p, w) {
          case None =>
            OneMore(code, s, p);
            More(code, s, p + 1, |s| + 1);
          case Some(w') => GoRight(code, s, p, w', seen + w'.here, ahead + w'.there, fuel - 1);
        }
      }
    } else {
      PositionDone(code, s, p, w.list, seen, ahead);
      OneMore(code, s, p);
      if p < |s| {
        OntoSteady(code, s, p, w, seen, ahead);
        GoRight(code, s, p + 1, Onto(w), ahead, {}, fuel);
      }
    }
  }

  lemma SteadyParts(code: Code, s: seq<Byte>, p: nat, w: Walk, seen: set<nat>, ahead: set<nat>)
    requires Steady(code, s, p, w, seen, ahead)
    ensures p <= |s| && w.k <= |w.list| && Followed(code, s, p, {}, seen) && Arrived(code, s, p, seen)
            && Holding(code, w.list, seen)
    ensures AllRan(code, s, p, w.list, w.k, seen, ahead)
  {
    hide Holding, Reasoned, Followed, Arrived, Ran;
  }

  lemma SearchRight(code: Code, s: seq<Byte>, fuel: nat)
    requires WellTargeted(code)
    ensures var r := SearchAhead(code, s, fuel);
            r.Ended? ==> r.status == if AcceptsBefore(code, s, |s| + 1) then OK else DECLINED
  {
    hide Steady, Go, AcceptsBefore, WellTargeted, Start;
    StartSteady(code, s);
    NotYet(code, s);
    StartAtZero(code, s);
    GoRight(code, s, 0, Start(code, s), Start(code, s).here, {}, fuel);
  }

  lemma StartAtZero(code: Code, s: seq<Byte>)
    ensures Start(code, s).k == 0
  {
  }

  lemma NotYet(code: Code, s: seq<Byte>)
    ensures !AcceptsBefore(code, s, 0)
  {
  }
}
