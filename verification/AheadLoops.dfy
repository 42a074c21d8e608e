/** When a search with look-ahead assertions goes on for ever.

    At a position where one tangled assertion holds, the assertion and the byte can keep
    each other going: the byte takes back the marks of their cycle, the assertion then
    puts the cycle onto the end of the list once more.  If that happens twice, it happens
    for ever: the position is never left, and the list gets longer than any bound.  So a
    bounded number of threads decides (StuckExactly, EndsExactly).  Once is enough if the
    byte comes before the assertion on the list that the assertion starts. */
module AheadLoops {
  import opened Regexes
  import opened Bytecode
  import opened Finite
  import opened Thompson
  import opened Programs
  import opened AheadMachine
  import opened AheadEnds

  ghost predicate Precedes(l: seq<nat>, x: nat, y: nat) {
    exists i, j :: 0 <= i < j < |l| && l[i] == x && l[j] == y
  }

  /** An instruction that neither stops the search nor adds to the list it is on. */
  predicate Idle(code: Code, s: seq<Byte>, p: nat, v: nat) {
    v < |code| && !code[v].Match? && (Postponed(code[v]) ==> !Holds(code[v].assertion, s, p))
  }

  /** On the cycle behind `a` nothing matches and no other assertion holds. */
  predicate Bland(code: Code, s: seq<Byte>, p: nat, a: nat, v: nat) {
    v < |code| && !code[v].Match?
        && (code[v].Look? ==> v == a || (Postponed(code[v]) && !Holds(code[v].assertion, s, p)))
  }

  /** What is put on a list when nothing is marked. */
  function Listing(code: Code, s: seq<Byte>, p: nat, v: nat): seq<nat> {
    Work(code, s, p, {}, [], [v]).list
  }

  /** The assertion at `a` and the byte at `c` are tangled at `p`, no other assertion
      holds on their cycle, and both are on the list that the assertion starts. */
  ghost predicate Looping(code: Code, s: seq<Byte>, p: nat, a: nat, c: nat) {
    && p < |s| && Tangled(code, a, c) && Holds(code[a].assertion, s, p) && code[c].Accepts(s[p])
    && (forall v: nat :: Leads(code, false, a + 1, v) ==> Bland(code, s, p, a, v))
    && a in Listing(code, s, p, a + 1) && c in Listing(code, s, p, a + 1)
  }

  /** What follows the assertion at `a` at once. */
  ghost function Kin(code: Code, a: nat): set<nat> {
    var b := a + 1;
    set v | 0 <= v < |code| && Leads(code, false, b, v)
  }

  /** No immediate step leaves the set. */
  ghost predicate StepClosed(code: Code, m: set<nat>) {
    forall v: nat, x: nat :: v in m && x in Steps(code, false, v) ==> x in m
  }

  lemma {:induction false} PathStays(code: Code, m: set<nat>, u: nat, v: nat, n: nat)
    requires StepClosed(code, m) && u in m && Path(code, false, u, v, n)
    ensures v in m
    decreases n
  {
    hide Steps;
    if n > 0 {
      var x: nat :| x in Steps(code, false, u) && Path(code, false, x, v, n - 1);
      PathStays(code, m, x, v, n - 1);
    }
  }

  lemma Stays(code: Code, m: set<nat>, u: nat)
    requires StepClosed(code, m) && u in m
    ensures forall v: nat :: Leads(code, false, u, v) ==> v in m
  {
    hide Path, StepClosed;
    forall v: nat | Leads(code, false, u, v) ensures v in m {
      var n: nat :| Path(code, false, u, v, n);
      PathStays(code, m, u, v, n);
    }
  }

  /** The cycle is marked for one list or the other, and of what is left on the list only
      the assertion adds to it. */
  ghost predicate Round(code: Code, s: seq<Byte>, p: nat, a: nat, w: Walk) {
    && w.here !! w.there && Kin(code, a) <= w.here + w.there && StepClosed(code, w.there * Kin(code, a))
    && w.k <= |w.list| && forall i :: w.k <= i < |w.list| ==> w.list[i] == a || Idle(code, s, p, w.list[i])
  }

  /** The byte is consumed before entry `j`, or has taken the cycle with it already. */
  ghost predicate Fed(list: seq<nat>, k: nat, j: nat, c: nat, loose: bool) {
    loose || exists i :: k <= i < j <= |list| && list[i] == c
  }

  /** Some turn of the assertion is fed; and what it lists feeds it again, or else a byte
      behind it will. */
  ghost predicate Lively(list: seq<nat>, k: nat, a: nat, c: nat, loose: bool, early: bool) {
    exists j :: k <= j < |list| && list[j] == a && Fed(list, k, j, c, loose)
                && (early || exists l :: j < l < |list| && list[l] == c)
  }

  ghost predicate Going(code: Code, s: seq<Byte>, p: nat, a: nat, c: nat, w: Walk) {
    && Round(code, s, p, a, w)
    && Lively(w.list, w.k, a, c, a + 1 in w.there, Precedes(Listing(code, s, p, a + 1), c, a))
  }

  /* The cycle. */

  lemma NowSteps(code: Code, s: seq<Byte>, p: nat, v: nat)
    requires v < |code| && (code[v].Look? ==> Postponed(code[v]))
    ensures Now(code, s, p, v) == Steps(code, false, v)
  {
  }

  lemma Cycle(code: Code, s: seq<Byte>, p: nat, a: nat, c: nat)
    requires Looping(code, s, p, a, c)
    ensures var kin := Kin(code, a);
            && StepClosed(code, kin) && a + 1 in kin && c + 1 in kin
            && (forall v :: v in kin ==> v < |code| && Bland(code, s, p, a, v))
            && (forall v: nat :: Leads(code, false, a + 1, v) <==> v in kin)
            && Leads(code, false, c + 1, a + 1)
  {
    hide Leads, Steps, Listing;
    LeadsSelf(code, false, a + 1);
    var kin := Kin(code, a);
    forall v: nat | Leads(code, false, a + 1, v) ensures v in kin { assert Bland(code, s, p, a, v); }
    forall v: nat, x: nat | v in kin && x in Steps(code, false, v) ensures x in kin {
      LeadsStep(code, false, v, x);
      LeadsTwice(code, false, a + 1, v, x);
      assert Bland(code, s, p, a, x);
    }
  }

  lemma KinNow(code: Code, s: seq<Byte>, p: nat, a: nat, c: nat, q: nat, v: nat)
    requires Looping(code, s, p, a, c) && v in Kin(code, a)
    ensures v < |code| && Now(code, s, q, v) == Steps(code, false, v)
  {
    Cycle(code, s, p, a, c);
    hide Leads, Now, Steps, Listing, Kin;
    NowSteps(code, s, q, v);
  }

  /** Following leaves nothing out. */
  lemma {:induction false} WorkClosed(code: Code, s: seq<Byte>, p: nat, marked: set<nat>, list: seq<nat>,
                                      todo: seq<nat>)
    ensures var r := Work(code, s, p, marked, list, todo);
            && marked <= r.marked && list <= r.list && (forall t :: t in todo && t < |code| ==> t in r.marked)
            && (forall v, x :: v in r.marked && v !in marked && v < |code| && x in Now(code, s, p, v) && x < |code| ==>
                  x in r.marked)
    decreases UpTo(|code|) - marked, |todo|
  {
    hide Waits, Now;
    if todo != [] {
      var pc, rest := todo[0], todo[1..];
      assert forall t :: t in todo ==> t == pc || t in rest;
      var r := Work(code, s, p, marked, list, todo);
      if pc >= |code| || pc in marked {
        WorkClosed(code, s, p, marked, list, rest);
      } else if Waits(code[pc]) {
        WaitsNowhere(code, s, p, pc);
        WorkClosed(code, s, p, marked + {pc}, list + [pc], rest);
      } else {
        var now := Now(code, s, p, pc);
        WorkClosed(code, s, p, marked + {pc}, list, now + rest);
        assert forall x :: x in now || x in rest ==> x in now + rest;
        assert pc in Work(code, s, p, marked + {pc}, list, now + rest).marked;
      }
    }
  }

  /** Marks of the cycle stay closed. */
  lemma StillClosed(code: Code, s: seq<Byte>, p: nat, a: nat, c: nat, q: nat, marked: set<nat>, list: seq<nat>,
                    todo: seq<nat>)
    requires Looping(code, s, p, a, c) && StepClosed(code, marked * Kin(code, a))
    ensures StepClosed(code, Work(code, s, q, marked, list, todo).marked * Kin(code, a))
  {
    hide Leads, Now, Steps, Kin, Work, Looping, Bland, StepClosed;
    Cycle(code, s, p, a, c);
    var kin, m := Kin(code, a), Work(code, s, q, marked, list, todo).marked;
    WorkClosed(code, s, q, marked, list, todo);
    forall v: nat, x: nat | v in m * kin && x in Steps(code, false, v) ensures x in m * kin {
      OneStep(code, kin, v, x);
      if v in marked {
        OneStep(code, marked * kin, v, x);
      } else {
        KinNow(code, s, p, a, c, q, v);
        assert x in Now(code, s, q, v) && x < |code|;
      }
    }
    IsClosed(code, m * kin);
  }

  lemma OneStep(code: Code, m: set<nat>, v: nat, x: nat)
    requires StepClosed(code, m) && v in m && x in Steps(code, false, v)
    ensures x in m
  {
    hide Steps;
  }

  lemma IsClosed(code: Code, m: set<nat>)
    requires forall v: nat, x: nat :: v in m && x in Steps(code, false, v) ==> x in m
    ensures StepClosed(code, m)
  {
    hide Steps;
  }

  /** Marks outside a closed set make no difference inside it, nor does the position if
      no assertion looks behind there. */
  lemma {:induction false} WorkBeside(code: Code, s: seq<Byte>, p: nat, p': nat, kin: set<nat>, marked: set<nat>,
                                      list: seq<nat>,
                                      marked': set<nat>, list': seq<nat>, todo: seq<nat>)
    requires forall v :: v in kin ==> v < |code| && Now(code, s, p, v) == Now(code, s, p', v)
                                      && forall x :: x in Now(code, s, p, v) ==> x in kin
    requires marked * kin == marked' * kin && forall t :: t in todo ==> t in kin
    ensures var r, r' := Work(code, s, p, marked, list, todo), Work(code, s, p', marked', list', todo);
            && |r.list| >= |list| && |r'.list| >= |list'| && r.list[|list|..] == r'.list[|list'|..]
            && r.marked * kin == r'.marked * kin && r.marked <= marked + kin
    decreases UpTo(|code|) - marked, |todo|
  {
    hide Waits, Now;
    if todo != [] {
      var pc, rest := todo[0], todo[1..];
      assert pc in kin && (pc in marked <==> pc in marked') by { assert pc in marked * kin <==> pc in marked' * kin; }
      if pc in marked {
        WorkBeside(code, s, p, p', kin, marked, list, marked', list', rest);
      } else {
        assert (marked + {pc}) * kin == marked * kin + {pc} && (marked' + {pc}) * kin == marked' * kin + {pc};
        if Waits(code[pc]) {
          WorkBeside(code, s, p, p', kin, marked + {pc}, list + [pc], marked' + {pc}, list' + [pc], rest);
          var r, r' := Work(code, s, p, marked, list, todo), Work(code, s, p', marked', list', todo);
          OneLonger(r.list, list, pc);
          OneLonger(r'.list, list', pc);
        } else {
          WorkBeside(code, s, p, p', kin, marked + {pc}, list, marked' + {pc}, list', Now(code, s, p, pc) + rest);
        }
      }
    }
  }

  lemma OneLonger(l: seq<nat>, list: seq<nat>, pc: nat)
    requires list + [pc] <= l
    ensures l[|list|..] == [pc] + l[|list + [pc]|..]
  {
  }

  /** What the assertion puts onto its own list when the cycle is marked for the other. */
  lemma CycleListed(code: Code, s: seq<Byte>, p: nat, a: nat, c: nat, marked: set<nat>, list: seq<nat>)
    requires Looping(code, s, p, a, c) && marked !! Kin(code, a)
    ensures Work(code, s, p, marked, list, [a + 1]).list == list + Listing(code, s, p, a + 1)
  {
    Cycle(code, s, p, a, c);
    hide Leads, Now, Steps, Kin, Work, Looping, Bland;
    var kin, r := Kin(code, a), Work(code, s, p, marked, list, [a + 1]);
    forall v | v in kin
      ensures v < |code| && forall x :: x in Now(code, s, p, v) ==> x in kin { KinNow(code, s, p, a, c, p, v); }
    assert marked * kin == {} == {} * kin;
    WorkBeside(code, s, p, p, kin, marked, list, {}, [], [a + 1]);
    WorkClosed(code, s, p, marked, list, [a + 1]);
  }

  lemma CycleMarked(code: Code, s: seq<Byte>, p: nat, a: nat, c: nat, marked: set<nat>, list: seq<nat>)
    requires Looping(code, s, p, a, c) && marked !! Kin(code, a)
    ensures Kin(code, a) <= Work(code, s, p, marked, list, [a + 1]).marked
  {
    Cycle(code, s, p, a, c);
    hide Leads, Now, Steps, Kin, Work, Looping, Bland;
    var kin, r := Kin(code, a), Work(code, s, p, marked, list, [a + 1]);
    WorkClosed(code, s, p, marked, list, [a + 1]);
    assert marked * kin == {} && a + 1 in [a + 1];
    StillClosed(code, s, p, a, c, p, marked, list, [a + 1]);
    Stays(code, r.marked * kin, a + 1);
  }

  /** On that list everything is there once, and only the assertion does anything. */
  lemma ListingIs(code: Code, s: seq<Byte>, p: nat, a: nat, c: nat)
    requires Looping(code, s, p, a, c)
    ensures var l := Listing(code, s, p, a + 1);
            && a in l && c in l && a != c
            && (forall i, j :: 0 <= i < j < |l| ==> l[i] != l[j])
            && (forall i :: 0 <= i < |l| ==> l[i] == a || Idle(code, s, p, l[i]))
  {
    Actors(code, s, p, a, c);
    hide Leads, Work, Holds, Tangled;
    var l := Listing(code, s, p, a + 1);
    WorkNew(code, s, p, {}, [], [a + 1]);
    forall x | 0 <= x < |l| && l[x] != a ensures Idle(code, s, p, l[x]) {
      assert Behind(code, [a + 1], l[x]);
      assert Bland(code, s, p, a, l[x]);
    }
  }

  /* One thread. */

  /** The byte at `c` takes the whole cycle to the next list. */
  lemma ByteLoosens(code: Code, s: seq<Byte>, p: nat, a: nat, c: nat, there: set<nat>, next: seq<nat>, h: nat)
    requires Looping(code, s, p, a, c) && StepClosed(code, there * Kin(code, a))
    ensures var m := Work(code, s, p + 1, there, next, [h + 1]).marked;
            there <= m && StepClosed(code, m * Kin(code, a)) && (a + 1 in there || h == c ==> a + 1 in m)
  {
    hide Leads, Steps, Kin, Work, Looping, Bland, StepClosed;
    StillClosed(code, s, p, a, c, p + 1, there, next, [h + 1]);
    WorkClosed(code, s, p + 1, there, next, [h + 1]);
    if h == c {
      Cycle(code, s, p, a, c);
      assert c + 1 in [h + 1];
      Stays(code, Work(code, s, p + 1, there, next, [h + 1]).marked * Kin(code, a), c + 1);
    }
  }

  /** What one thread does, if it is not the assertion or if the cycle is not marked for
      the next list. */
  ghost predicate Passes(code: Code, s: seq<Byte>, p: nat, a: nat, c: nat, w: Walk, w': Walk) {
    && Round(code, s, p, a, w') && w'.list == w.list && w'.k == w.k + 1 && w.k < |w.list|
    && (a + 1 in w.there || w.list[w.k] == c ==> a + 1 in w'.there)
  }

  /** What the assertion does otherwise. */
  ghost predicate Fires(code: Code, s: seq<Byte>, p: nat, a: nat, w: Walk, w': Walk) {
    && Round(code, s, p, a, w') && w'.list == w.list + Listing(code, s, p, a + 1) && w'.k == w.k + 1
    && a + 1 !in w'.there
  }

  /** A byte is consumed: marks of the cycle move to the next list together. */
  lemma PassByte(code: Code, s: seq<Byte>, p: nat, a: nat, c: nat, w: Walk, r: Seen)
    requires Looping(code, s, p, a, c) && Round(code, s, p, a, w) && w.k < |w.list| && w.list[w.k] != a
    requires r == Work(code, s, p + 1, w.there, w.next, [w.list[w.k] + 1])
    ensures Passes(code, s, p, a, c, w, Walk(w.here - r.marked, r.marked, w.list, r.list, w.k + 1))
  {
    hide Kin, Work, Looping, StepClosed, Idle;
    ByteLoosens(code, s, p, a, c, w.there, w.next, w.list[w.k]);
  }

  lemma PassIdle(code: Code, s: seq<Byte>, p: nat, a: nat, c: nat, w: Walk)
    requires Round(code, s, p, a, w) && w.k < |w.list| && w.list[w.k] != c
    ensures Passes(code, s, p, a, c, w, w.(k := w.k + 1))
  {
    hide Idle, Kin, StepClosed;
  }

  /** The assertion has its turn, and its cycle is marked for the list already. */
  lemma PassAhead(code: Code, s: seq<Byte>, p: nat, a: nat, c: nat, w: Walk, r: Seen)
    requires Looping(code, s, p, a, c) && Round(code, s, p, a, w) && w.k < |w.list| && w.list[w.k] == a
    requires r == Work(code, s, p, w.here, w.list, [a + 1]) && a + 1 !in w.there
    ensures Passes(code, s, p, a, c, w, Walk(r.marked, w.there - r.marked, r.list, w.next, w.k + 1))
  {
    hide Kin, Work, Looping, StepClosed, Idle, Listing, Leads;
    Cycle(code, s, p, a, c);
    ListingIs(code, s, p, a, c);
    assert a + 1 in w.here;
    WorkFrom(code, s, p, w.here, w.list, a + 1);
    assert w.there - w.here == w.there;
    PassIdle(code, s, p, a, c, w);
  }

  /** The assertion has its turn: the cycle is listed once more. */
  lemma FireAhead(code: Code, s: seq<Byte>, p: nat, a: nat, c: nat, w: Walk, r: Seen)
    requires Looping(code, s, p, a, c) && Round(code, s, p, a, w) && w.k < |w.list| && w.list[w.k] == a
    requires r == Work(code, s, p, w.here, w.list, [a + 1]) && a + 1 in w.there
    ensures Fires(code, s, p, a, w, Walk(r.marked, w.there - r.marked, r.list, w.next, w.k + 1))
  {
    hide Leads, Steps, Kin, Work, Looping, Bland, Idle, Listing;
    Cycle(code, s, p, a, c);
    var kin, l := Kin(code, a), Listing(code, s, p, a + 1);
    Stays(code, w.there * kin, a + 1);
    assert w.here !! kin;
    CycleListed(code, s, p, a, c, w.here, w.list);
    CycleMarked(code, s, p, a, c, w.here, w.list);
    assert (w.there - r.marked) * kin == {};
    ListingIs(code, s, p, a, c);
    RestIdle(code, s, p, a, w.list, w.k, l);
  }

  lemma RestIdle(code: Code, s: seq<Byte>, p: nat, a: nat, list: seq<nat>, k: nat, l: seq<nat>)
    requires forall i :: k <= i < |list| ==> list[i] == a || Idle(code, s, p, list[i])
    requires forall i :: 0 <= i < |l| ==> l[i] == a || Idle(code, s, p, l[i])
    ensures forall i :: k < i < |list + l| ==> (list + l)[i] == a || Idle(code, s, p, (list + l)[i])
  {
    hide Idle;
  }

  /** Every thread is one or the other. */
  lemma RoundOn(code: Code, s: seq<Byte>, p: nat, a: nat, c: nat, w: Walk)
    requires Looping(code, s, p, a, c) && Round(code, s, p, a, w) && w.k < |w.list|
    ensures var r := RunOne(code, s, p, w);
            && r.Some?
            && (w.list[w.k] == a && a + 1 in w.there ==> Fires(code, s, p, a, w, r.value))
            && (w.list[w.k] != a || a + 1 !in w.there ==> Passes(code, s, p, a, c, w, r.value))
  {
    Actors(code, s, p, a, c);
    RoundHead(code, s, p, a, w);
    hide Looping, Round, Work, Holds, Idle, Passes, Fires;
    var h := w.list[w.k];
    if h == a {
      var r := Work(code, s, p, w.here, w.list, [a + 1]);
      if a + 1 in w.there { FireAhead(code, s, p, a, c, w, r); } else { PassAhead(code, s, p, a, c, w, r); }
    } else {
      NotHeld(code, s, p, h);
      if code[h].Consuming() && code[h].Accepts(s[p]) {
        PassByte(code, s, p, a, c, w, Work(code, s, p + 1, w.there, w.next, [h + 1]));
      } else {
        PassIdle(code, s, p, a, c, w);
      }
    }
  }

  lemma Actors(code: Code, s: seq<Byte>, p: nat, a: nat, c: nat)
    requires Looping(code, s, p, a, c)
    ensures p < |s| && a < |code| && Postponed(code[a]) && !code[a].Match? && Holds(code[a].assertion, s, p)
    ensures c < |code| && code[c].Consuming() && code[c].Accepts(s[p]) && a != c
  {
    hide Leads, Holds, Bland, Listing;
  }

  lemma RoundHead(code: Code, s: seq<Byte>, p: nat, a: nat, w: Walk)
    requires Round(code, s, p, a, w) && w.k < |w.list|
    ensures w.list[w.k] == a || Idle(code, s, p, w.list[w.k])
  {
    hide Idle, Kin, StepClosed;
  }

  lemma NotHeld(code: Code, s: seq<Byte>, p: nat, v: nat)
    requires Idle(code, s, p, v)
    ensures v < |code| && !code[v].Match? && !(Postponed(code[v]) && Holds(code[v].assertion, s, p))
  {
    hide Holds;
  }

  /* The order of the list. */

  lemma LivelyNext(list: seq<nat>, k: nat, a: nat, c: nat, loose: bool, loose': bool, early: bool)
    requires Lively(list, k, a, c, loose, early) && k < |list| && a != c && !(list[k] == a && loose)
    requires loose || list[k] == c ==> loose'
    ensures Lively(list, k + 1, a, c, loose', early)
  {
  }

  lemma LivelyFires(list: seq<nat>, k: nat, a: nat, c: nat, l: seq<nat>)
    requires Lively(list, k, a, c, true, Precedes(l, c, a)) && k < |list| && list[k] == a && a != c && a in l && c in l
    ensures Lively(list + l, k + 1, a, c, false, Precedes(l, c, a))
  {
    LivelyBehind(list, k + 1, a, c, l);
  }

  /** What is appended is fed from before, or by itself. */
  lemma LivelyBehind(list: seq<nat>, k: nat, a: nat, c: nat, l: seq<nat>)
    requires k <= |list| && a != c && a in l && c in l
    requires Precedes(l, c, a) || exists i :: k <= i < |list| && list[i] == c
    ensures Lively(list + l, k, a, c, false, Precedes(l, c, a))
  {
    var n := |list|;
    assert forall i :: 0 <= i < |l| ==> (list + l)[n + i] == l[i];
    if Precedes(l, c, a) {
      var i, j :| 0 <= i < j < |l| && l[i] == c && l[j] == a;
      assert Fed(list + l, k, n + j, c, false) by { assert (list + l)[n + i] == c; }
    } else {
      var i :| k <= i < n && list[i] == c;
      var x :| 0 <= x < |l| && l[x] == a;
      var y :| 0 <= y < |l| && l[y] == c;
      assert x < y;
      assert (list + l)[i] == c && (list + l)[n + y] == c && (list + l)[n + x] == a;
      assert Fed(list + l, k, n + x, c, false);
    }
  }

  /** The second turn is enough. */
  lemma LivelySecond(list: seq<nat>, k: nat, a: nat, c: nat, l: seq<nat>)
    requires k < |list + l| && (list + l)[k] == a && a != c && a in l && c in l
    requires forall i, j :: 0 <= i < j < |l| ==> l[i] != l[j]
    ensures Lively(list + l + l, k + 1, a, c, false, Precedes(l, c, a))
  {
    if !Precedes(l, c, a) {
      var x :| 0 <= x < |l| && l[x] == a;
      var y :| 0 <= y < |l| && l[y] == c;
      assert x < y;
      if k >= |list| { assert l[k - |list|] == a; }
      assert (list + l)[|list| + y] == c;
    }
    LivelyBehind(list + l, k + 1, a, c, l);
  }

  /** Every thread keeps it going. */
  lemma GoingOn(code: Code, s: seq<Byte>, p: nat, a: nat, c: nat, w: Walk)
    requires Looping(code, s, p, a, c) && Going(code, s, p, a, c, w)
    ensures w.k < |w.list| && RunOne(code, s, p, w).Some? && Going(code, s, p, a, c, RunOne(code, s, p, w).value)
  {
    ListingIs(code, s, p, a, c);
    LivelyLeft(w.list, w.k, a, c, a + 1 in w.there, Precedes(Listing(code, s, p, a + 1), c, a));
    RoundOn(code, s, p, a, c, w);
    hide Looping, Round, Lively, RunOne, Listing, Precedes, Idle;
    var w', l := RunOne(code, s, p, w).value, Listing(code, s, p, a + 1);
    if w.list[w.k] == a && a + 1 in w.there {
      LivelyFires(w.list, w.k, a, c, l);
    } else {
      LivelyNext(w.list, w.k, a, c, a + 1 in w.there, a + 1 in w'.there, Precedes(l, c, a));
    }
  }

  lemma LivelyLeft(list: seq<nat>, k: nat, a: nat, c: nat, loose: bool, early: bool)
    requires Lively(list, k, a, c, loose, early)
    ensures k < |list|
  {
  }

  /** The search stays where it is, and its list gets longer than the fuel that is
      used. */
  lemma {:induction false} Forever(code: Code, s: seq<Byte>, p: nat, a: nat, c: nat, w: Walk, fuel: nat)
    requires p <= |s| && Looping(code, s, p, a, c) && Going(code, s, p, a, c, w)
    ensures var r := Go(code, s, p, w, fuel);
            r.Open? && r.p == p && |r.walk.list| > w.k + fuel
    decreases fuel
  {
    hide Looping, Going, Go, RunOne;
    GoingOn(code, s, p, a, c, w);
    GoOn(code, s, p, w, fuel);
    if fuel > 0 {
      var w' := RunOne(code, s, p, w).value;
      assert w'.k == w.k + 1;
      Forever(code, s, p, a, c, w', fuel - 1);
    }
  }

  /** What is left of the fuel is used from where the search has come to. */
  lemma {:induction false} GoThrough(code: Code, s: seq<Byte>, p: nat, w: Walk, m: nat, n: nat)
    requires p <= |s| && Go(code, s, p, w, m).Open?
    ensures var r := Go(code, s, p, w, m);
            Go(code, s, p, w, m + n) == Go(code, s, r.p, r.walk, n)
    decreases |s| - p, m
  {
    hide RunOne, Go;
    GoOn(code, s, p, w, m);
    GoOn(code, s, p, w, m + n);
    if w.k < |w.list| {
      if m > 0 { GoThrough(code, s, p, RunOne(code, s, p, w).value, m - 1, n); }
    } else {
      GoThrough(code, s, p + 1, Onto(w), m, n);
    }
  }

  /** A search that has come to such a point never ends, and no array holds its list. */
  lemma NeverEnds(code: Code, s: seq<Byte>, a: nat, c: nat, used: nat)
    requires var r := SearchAhead(code, s, used);
             r.Open? && Looping(code, s, r.p, a, c) && Going(code, s, r.p, a, c, r.walk)
    ensures !Ends(code, s)
    ensures forall fuel: nat :: fuel >= used ==>
              var r := SearchAhead(code, s, fuel);
              r.Open? && r.p == SearchAhead(code, s, used).p && |r.walk.list| > fuel - used
  {
    hide Looping, Going, Go, Start;
    var w := SearchAhead(code, s, used);
    forall fuel: nat | fuel >= used
      ensures var r := SearchAhead(code, s, fuel); r.Open? && r.p == w.p && |r.walk.list| > fuel - used
    {
      GoThrough(code, s, 0, Start(code, s), used, fuel - used);
      Forever(code, s, w.p, a, c, w.walk, fuel - used);
    }
    forall fuel: nat ensures !SearchAhead(code, s, fuel).Ended? {
      var more := used + fuel;
      assert SearchAhead(code, s, more).Open?;
      if SearchAhead(code, s, fuel).Ended? {
        GoMore(code, s, 0, Start(code, s), fuel, more);
      }
    }
  }

  /* The exact condition at a position. */

  /** The search does not get beyond this position. */
  ghost predicate Stuck(code: Code, s: seq<Byte>, p: nat, w: Walk)
    requires p <= |s|
  {
    forall fuel: nat :: StaysAt(code, s, p, w, fuel)
  }

  predicate StaysAt(code: Code, s: seq<Byte>, p: nat, w: Walk, fuel: nat)
    requires p <= |s|
  {
    var r := Go(code, s, p, w, fuel);
    r.Open? && r.p == p
  }

  lemma GoingStuck(code: Code, s: seq<Byte>, p: nat, a: nat, c: nat, w: Walk)
    requires p <= |s| && Looping(code, s, p, a, c) && Going(code, s, p, a, c, w)
    ensures Stuck(code, s, p, w)
  {
    hide Looping, Going, Go;
    forall fuel: nat ensures StaysAt(code, s, p, w, fuel) { Forever(code, s, p, a, c, w, fuel); }
  }

  lemma StuckBefore(code: Code, s: seq<Byte>, p: nat, w: Walk)
    requires p <= |s| && w.k < |w.list| && RunOne(code, s, p, w).Some? && Stuck(code, s, p, RunOne(code, s, p, w).value)
    ensures Stuck(code, s, p, w)
  {
    hide Go, RunOne;
    var w' := RunOne(code, s, p, w).value;
    forall fuel: nat ensures StaysAt(code, s, p, w, fuel) {
      GoOn(code, s, p, w, fuel);
      if fuel > 0 {
        var less := fuel - 1;
        assert StaysAt(code, s, p, w', less);
      }
    }
  }

  lemma StaysNext(code: Code, s: seq<Byte>, p: nat, w: Walk, fuel: nat)
    requires p <= |s| && w.k < |w.list| && RunOne(code, s, p, w).Some? && fuel > 0
    ensures StaysAt(code, s, p, w, fuel) <==> StaysAt(code, s, p, RunOne(code, s, p, w).value, fuel - 1)
  {
    hide Go, RunOne;
    GoOn(code, s, p, w, fuel);
  }

  lemma LeftBehind(code: Code, s: seq<Byte>, p: nat, w: Walk, fuel: nat)
    requires p <= |s| && w.k >= |w.list|
    ensures !StaysAt(code, s, p, w, fuel)
  {
    hide Go;
    GoOn(code, s, p, w, fuel);
  }

  /** After one turn of the assertion. */
  lemma {:induction false} StuckTwice(code: Code, s: seq<Byte>, p: nat, a: nat, c: nat, w: Walk, list: seq<nat>)
    requires p <= |s| && Looping(code, s, p, a, c) && Round(code, s, p, a, w)
             && w.list == list + Listing(code, s, p, a + 1)
    ensures StaysAt(code, s, p, w, |w.list| - w.k) ==> Stuck(code, s, p, w)
    decreases |w.list| - w.k
  {
    RoundInside(code, s, p, a, w);
    hide Looping, Round, Lively, RunOne, Listing, Precedes, Idle, Stuck, StaysAt;
    if w.k >= |w.list| {
      LeftBehind(code, s, p, w, 0);
    } else {
      RoundOn(code, s, p, a, c, w);
      var w', l := RunOne(code, s, p, w).value, Listing(code, s, p, a + 1);
      StaysNext(code, s, p, w, |w.list| - w.k);
      if w.list[w.k] == a && a + 1 in w.there {
        ListingIs(code, s, p, a, c);
        LivelySecond(list, w.k, a, c, l);
        assert list + l + l == w'.list;
        GoingStuck(code, s, p, a, c, w');
        StuckBefore(code, s, p, w);
      } else {
        StuckTwice(code, s, p, a, c, w', list);
        if Stuck(code, s, p, w') { StuckBefore(code, s, p, w); }
      }
    }
  }

  lemma RoundInside(code: Code, s: seq<Byte>, p: nat, a: nat, w: Walk)
    requires Round(code, s, p, a, w)
    ensures w.k <= |w.list|
  {
  }

  /** A position that is not left after as many threads as there are on the list and on
      the list of the assertion is never left. */
  lemma {:induction false} StuckExactly(code: Code, s: seq<Byte>, p: nat, a: nat, c: nat, w: Walk)
    requires p <= |s| && Looping(code, s, p, a, c) && Round(code, s, p, a, w)
    ensures w.k <= |w.list|
    ensures Stuck(code, s, p, w) <==> StaysAt(code, s, p, w, |w.list| - w.k + |Listing(code, s, p, a + 1)|)
    decreases |w.list| - w.k
  {
    RoundInside(code, s, p, a, w);
    hide Looping, Round, RunOne, Listing, Idle, StaysAt;
    var n := |Listing(code, s, p, a + 1)|;
    if w.k >= |w.list| {
      LeftBehind(code, s, p, w, n);
    } else {
      RoundOn(code, s, p, a, c, w);
      var w' := RunOne(code, s, p, w).value;
      StaysNext(code, s, p, w, |w.list| - w.k + n);
      if w.list[w.k] == a && a + 1 in w.there {
        StuckTwice(code, s, p, a, c, w', w.list);
      } else {
        StuckExactly(code, s, p, a, c, w');
      }
      if Stuck(code, s, p, w') { StuckBefore(code, s, p, w); }
    }
  }

  /* The exact condition for a search. */

  /** The search comes to `p` with this list. */
  ghost predicate Arrives(code: Code, s: seq<Byte>, p: nat, w: Walk) {
    p <= |s| && w.k == 0 && exists fuel: nat :: SearchAhead(code, s, fuel) == Open(p, w)
  }

  /** Something is tangled there, and no match ends there or before. */
  ghost predicate Meets(code: Code, s: seq<Byte>, p: nat, w: Walk) {
    Arrives(code, s, p, w) && TangledAt(code, s, p) && !AcceptsBefore(code, s, p + 1)
  }

  /** It is one assertion with its cycle. */
  ghost predicate Lone(code: Code, s: seq<Byte>, p: nat, w: Walk) {
    exists a: nat, c: nat :: Looping(code, s, p, a, c) && Round(code, s, p, a, w)
  }

  /** As many threads as there are on the two lists take the search further. */
  ghost predicate Leaves(code: Code, s: seq<Byte>, p: nat, w: Walk) {
    && p <= |s|
    && exists a: nat, c: nat :: Looping(code, s, p, a, c) && Round(code, s, p, a, w)
                                && !StaysAt(code, s, p, w, |w.list| + |Listing(code, s, p, a + 1)|)
  }

  lemma LoneLeaves(code: Code, s: seq<Byte>, p: nat, w: Walk)
    requires p <= |s| && w.k == 0 && Lone(code, s, p, w)
    ensures Leaves(code, s, p, w) <==> !Stuck(code, s, p, w)
  {
    hide Looping, Round, StaysAt, Stuck, Listing;
    forall a: nat, c: nat | Looping(code, s, p, a, c) && Round(code, s, p, a, w)
      ensures Stuck(code, s, p, w) <==> StaysAt(code, s, p, w, |w.list| + |Listing(code, s, p, a + 1)|) {
      StuckExactly(code, s, p, a, c, w);
    }
  }

  /** A position where nothing is tangled is left. */
  lemma {:induction false} UntangledLeft(code: Code, s: seq<Byte>, p: nat, w: Walk) returns (fuel: nat)
    requires p <= |s| && w.k <= |w.list| && w.here !! w.there && !TangledAt(code, s, p)
    ensures !StaysAt(code, s, p, w, fuel)
    decreases Measure(code, s, p, w), |w.list| - w.k
  {
    hide TangledAt, Measure, RunOne, StaysAt;
    if w.k == |w.list| {
      fuel := 0;
      LeftBehind(code, s, p, w, fuel);
    } else if RunOne(code, s, p, w).None? {
      fuel := 1;
      LeftMatching(code, s, p, w);
    } else {
      StepLess(code, s, p, w);
      fuel := UntangledLeft(code, s, p, RunOne(code, s, p, w).value);
      fuel := fuel + 1;
      StaysNext(code, s, p, w, fuel);
    }
  }

  lemma LeftMatching(code: Code, s: seq<Byte>, p: nat, w: Walk)
    requires p <= |s| && w.k < |w.list| && RunOne(code, s, p, w).None?
    ensures !StaysAt(code, s, p, w, 1)
  {
    hide RunOne, Go;
    GoOn(code, s, p, w, 1);
  }

  /** The list has been run, and after `used` threads the search is at the next position. */
  ghost predicate Passed(code: Code, s: seq<Byte>, p: nat, w: Walk, w': Walk, used: nat) {
    && p < |s| && w'.k == |w'.list|
    && forall more: nat :: Onward(code, s, p, w, w', used, more)
  }

  ghost predicate Onward(code: Code, s: seq<Byte>, p: nat, w: Walk, w': Walk, used: nat, more: nat)
    requires p < |s|
  {
    Go(code, s, p, w, used + more) == Go(code, s, p + 1, Onto(w'), more)
  }

  /** A position that is left is left for an answer or for the next position. */
  lemma {:induction false} LeftHow(code: Code, s: seq<Byte>, p: nat, w: Walk, seen: set<nat>, ahead: set<nat>,
                                   fuel: nat)
    returns (w': Walk, seen': set<nat>, ahead': set<nat>, used: nat)
    requires WellTargeted(code) && Steady(code, s, p, w, seen, ahead) && !StaysAt(code, s, p, w, fuel)
    ensures Halts(code, s, p, w) || (Steady(code, s, p, w', seen', ahead') && Passed(code, s, p, w, w', used))
    decreases fuel
  {
    hide *;
    SteadyParts(code, s, p, w, seen, ahead);
    w', seen', ahead', used := w, seen, ahead, 0;
    if w.list == [] || (w.k == |w.list| && p == |s|) || (w.k < |w.list| && RunOne(code, s, p, w).None?) {
      HaltsThere(code, s, p, w);
    } else if w.k == |w.list| {
      PassedNow(code, s, p, w);
    } else if fuel == 0 {
      StaysFirst(code, s, p, w);
    } else {
      var x := RunOne(code, s, p, w).value;
      StepSteady(code, s, p, w, seen, ahead);
      StaysNext(code, s, p, w, fuel);
      w', seen', ahead', used := LeftHow(code, s, p, x, seen + x.here, ahead + x.there, fuel - 1);
      if Halts(code, s, p, x) {
        HaltsStep(code, s, p, w);
      } else {
        PassedBefore(code, s, p, w, w', used);
        used := used + 1;
      }
    }
  }

  lemma StaysFirst(code: Code, s: seq<Byte>, p: nat, w: Walk)
    requires p <= |s| && w.k < |w.list|
    ensures StaysAt(code, s, p, w, 0)
  {
    hide RunOne;
  }

  lemma PassedNow(code: Code, s: seq<Byte>, p: nat, w: Walk)
    requires p < |s| && w.list != [] && w.k == |w.list|
    ensures Passed(code, s, p, w, w, 0)
  {
    hide Go;
    forall more: nat ensures Onward(code, s, p, w, w, 0, more) { GoOn(code, s, p, w, more); }
  }

  lemma PassedBefore(code: Code, s: seq<Byte>, p: nat, w: Walk, w': Walk, used: nat)
    requires w.k < |w.list| && RunOne(code, s, p, w).Some? && Passed(code, s, p, RunOne(code, s, p, w).value, w', used)
    ensures Passed(code, s, p, w, w', used + 1)
  {
    hide Go, RunOne;
    var x, n := RunOne(code, s, p, w).value, used + 1;
    forall more: nat ensures Onward(code, s, p, w, w', n, more) {
      assert Onward(code, s, p, x, w', used, more);
      GoOn(code, s, p, w, n + more);
    }
  }

  lemma PassedHalts(code: Code, s: seq<Byte>, p: nat, w: Walk, w': Walk, used: nat)
    requires Passed(code, s, p, w, w', used) && Halts(code, s, p + 1, Onto(w'))
    ensures Halts(code, s, p, w)
  {
    hide Go;
    var more: nat :| Go(code, s, p + 1, Onto(w'), more).Ended?;
    assert Onward(code, s, p, w, w', used, more);
    var fuel := used + more;
    assert Go(code, s, p, w, fuel).Ended?;
  }

  lemma ArrivesNext(code: Code, s: seq<Byte>, p: nat, w: Walk, w': Walk, used: nat)
    requires Arrives(code, s, p, w) && Passed(code, s, p, w, w', used) && w'.next != []
    ensures Arrives(code, s, p + 1, Onto(w'))
  {
    hide Go, Start;
    var fuel: nat :| SearchAhead(code, s, fuel) == Open(p, w);
    GoThrough(code, s, 0, Start(code, s), fuel, used);
    assert Onward(code, s, p, w, w', used, 0);
    GoOn(code, s, p + 1, Onto(w'), 0);
    var more := fuel + used;
    assert SearchAhead(code, s, more) == Open(p + 1, Onto(w'));
  }

  lemma {:induction false} AllHalt(code: Code, s: seq<Byte>, p: nat, w: Walk, seen: set<nat>, ahead: set<nat>)
    requires WellTargeted(code) && Steady(code, s, p, w, seen, ahead) && w.here !! w.there && w.k == 0
    requires !AcceptsBefore(code, s, p) && (w.list == [] || Arrives(code, s, p, w))
    requires forall q: nat, x: Walk :: Meets(code, s, q, x) ==> Leaves(code, s, q, x)
    ensures p <= |s| && Halts(code, s, p, w)
    decreases |s| - p
  {
    SteadyParts(code, s, p, w, seen, ahead);
    OneMore(code, s, p);
    hide WellTargeted, Steady, RunOne, Accepting, AcceptsBefore, Halts, TangledAt, Arrives, StaysAt, Passed, Leaves;
    if w.list == [] {
      HaltsThere(code, s, p, w);
    } else if Accepting(code, s, p) {
      AcceptingHalts(code, s, p, w, seen, ahead);
    } else {
      var fuel;
      if TangledAt(code, s, p) {
        assert Meets(code, s, p, w);
        fuel := LeavesFuel(code, s, p, w);
      } else {
        fuel := UntangledLeft(code, s, p, w);
      }
      var w', seen', ahead', used := LeftHow(code, s, p, w, seen, ahead, fuel);
      if !Halts(code, s, p, w) {
        AllHaltNext(code, s, p, w, w', used);
        OntoSteady(code, s, p, w', seen', ahead');
        AllHalt(code, s, p + 1, Onto(w'), ahead', {});
        PassedHalts(code, s, p, w, w', used);
      }
    }
  }

  lemma AllHaltNext(code: Code, s: seq<Byte>, p: nat, w: Walk, w': Walk, used: nat)
    requires Passed(code, s, p, w, w', used) && Arrives(code, s, p, w)
    ensures p < |s| && w'.k == |w'.list| && (w'.next != [] ==> Arrives(code, s, p + 1, Onto(w')))
  {
    hide Onward, Arrives;
    if w'.next != [] { ArrivesNext(code, s, p, w, w', used); }
  }

  lemma LeavesFuel(code: Code, s: seq<Byte>, p: nat, w: Walk) returns (fuel: nat)
    requires p <= |s| && Leaves(code, s, p, w)
    ensures !StaysAt(code, s, p, w, fuel)
  {
    hide StaysAt, Looping, Round, Listing;
    var a: nat, c: nat :| Looping(code, s, p, a, c) && Round(code, s, p, a, w)
                          && !StaysAt(code, s, p, w, |w.list| + |Listing(code, s, p, a + 1)|);
    fuel := |w.list| + |Listing(code, s, p, a + 1)|;
  }

  lemma StuckNeverEnds(code: Code, s: seq<Byte>, p: nat, w: Walk)
    requires Arrives(code, s, p, w) && Stuck(code, s, p, w)
    ensures !Ends(code, s)
  {
    hide Go, Start;
    var used: nat :| SearchAhead(code, s, used) == Open(p, w);
    forall fuel: nat ensures !SearchAhead(code, s, fuel).Ended? {
      var more := used + fuel;
      GoThrough(code, s, 0, Start(code, s), used, fuel);
      assert StaysAt(code, s, p, w, fuel);
      if SearchAhead(code, s, fuel).Ended? { GoMore(code, s, 0, Start(code, s), fuel, more); }
    }
  }

  /** The theorem: if wherever the search comes to something tangled that is one assertion
      with its cycle, then the search ends if and only if each such position is left after
      as many threads as are on its list and on the list of the assertion. */
  lemma EndsExactly(code: Code, s: seq<Byte>)
    requires WellTargeted(code) && forall p: nat, w: Walk :: Meets(code, s, p, w) ==> Lone(code, s, p, w)
    ensures Ends(code, s) <==> forall p: nat, w: Walk :: Meets(code, s, p, w) ==> Leaves(code, s, p, w)
  {
    hide *;
    if Ends(code, s) {
      forall p: nat, w: Walk | Meets(code, s, p, w) ensures Leaves(code, s, p, w) {
        MeetsIs(code, s, p, w);
        LoneLeaves(code, s, p, w);
        if Stuck(code, s, p, w) { StuckNeverEnds(code, s, p, w); }
      }
    }
    if forall p: nat, w: Walk :: Meets(code, s, p, w) ==> Leaves(code, s, p, w) {
      StartAtZero(code, s);
      StartSteady(code, s);
      NotYet(code, s);
      StartApart(code, s);
      StartArrives(code, s);
      AllHalt(code, s, 0, Start(code, s), Start(code, s).here, {});
      EndsHalts(code, s);
    }
  }

  lemma MeetsIs(code: Code, s: seq<Byte>, p: nat, w: Walk)
    requires Meets(code, s, p, w)
    ensures Arrives(code, s, p, w) && p <= |s| && w.k == 0
  {
    hide TangledAt, AcceptsBefore;
  }

  lemma StartArrives(code: Code, s: seq<Byte>)
    ensures Start(code, s).list == [] || Arrives(code, s, 0, Start(code, s))
  {
    hide Go, Start;
    StartAtZero(code, s);
    GoOn(code, s, 0, Start(code, s), 0);
    assert SearchAhead(code, s, 0) == Go(code, s, 0, Start(code, s), 0);
  }

  lemma EndsHalts(code: Code, s: seq<Byte>)
    ensures Ends(code, s) <==> Halts(code, s, 0, Start(code, s))
  {
    hide Go, Start;
    assert forall fuel: nat :: SearchAhead(code, s, fuel) == Go(code, s, 0, Start(code, s), fuel);
  }
}
