/** When thread lists of program length are enough for a search with look-ahead
    assertions.

    Every list holds an instruction at most once if nothing that waits follows both an
    assertion that holds and a byte that is consumed at the same position.  Then no list
    is longer than the program, and the search ends soon. */
module AheadFits {
  import opened Regexes
  import opened Bytecode
  import opened AheadMachine
  import opened AheadEnds

  /** A byte consumed at `p` leads to `v`. */
  ghost predicate Brought(code: Code, s: seq<Byte>, p: nat, v: nat) {
    exists r: nat :: ByteRoot(code, s, p, r) && Leads(code, false, r, v)
  }

  /** An assertion that holds at `p` leads to `v`. */
  ghost predicate Granted(code: Code, s: seq<Byte>, p: nat, v: nat) {
    exists a: nat :: a < |code| && Postponed(code[a]) && Holds(code[a].assertion, s, p) && Leads(code, false, a + 1, v)
  }

  /** No instruction that waits is both. */
  ghost predicate ApartAt(code: Code, s: seq<Byte>, p: nat) {
    forall v: nat :: v < |code| && Waits(code[v]) && Brought(code, s, p, v) ==> !Granted(code, s, p, v)
  }

  predicate Distinct(list: seq<nat>) {
    forall i, j :: 0 <= i < j < |list| ==> list[i] != list[j]
  }

  predicate Waiting(code: Code, list: seq<nat>) {
    forall i :: 0 <= i < |list| ==> list[i] < |code| && Waits(code[list[i]])
  }

  /** What keeps an entry from being added again: its mark, or that a byte has taken the
      mark away. */
  ghost predicate Kept(code: Code, s: seq<Byte>, p: nat, marked: set<nat>, list: seq<nat>) {
    forall v :: v in list ==> v in marked || Brought(code, s, p, v)
  }

  ghost predicate AllBrought(code: Code, s: seq<Byte>, p: nat, marked: set<nat>, list: seq<nat>) {
    forall v :: v in list ==> v in marked && Brought(code, s, p, v)
  }

  ghost predicate Neat(code: Code, s: seq<Byte>, p: nat, w: Walk) {
    && w.here !! w.there && w.k <= |w.list|
    && Distinct(w.list) && Waiting(code, w.list) && Kept(code, s, p, w.here, w.list)
    && Distinct(w.next) && Waiting(code, w.next) && AllBrought(code, s, p, w.there, w.next)
  }

  /** What is added was not there. */
  lemma AddsDistinct(code: Code, s: seq<Byte>, p: nat, marked: set<nat>, list: seq<nat>, pc: nat)
    requires Distinct(list) && Waiting(code, list)
    requires forall v: nat :: v in list && v !in marked && v < |code| && Waits(code[v]) ==> !Leads(code, false, pc, v)
    ensures var r := Work(code, s, p, marked, list, [pc]); Distinct(r.list) && Waiting(code, r.list)
  {
    hide Leads, Waits, Work;
    WorkNew(code, s, p, marked, list, [pc]);
    var r := Work(code, s, p, marked, list, [pc]);
    WorkFrom(code, s, p, marked, list, pc);
    WorkLonger(code, s, p, marked, list, [pc]);
    forall i, j | 0 <= i < j < |r.list| ensures r.list[i] != r.list[j] {
      if i < |list| <= j {
        assert r.list[i] == list[i];
        assert r.list[j] !in marked && Leads(code, false, pc, r.list[j]);
      } else if j < |list| {
        assert r.list[i] == list[i] && r.list[j] == list[j];
      }
    }
    forall i | 0 <= i < |r.list| ensures r.list[i] < |code| && Waits(code[r.list[i]]) {
      if i < |list| { assert r.list[i] == list[i]; }
    }
  }

  lemma WorkLonger(code: Code, s: seq<Byte>, p: nat, marked: set<nat>, list: seq<nat>, todo: seq<nat>)
    ensures var r := Work(code, s, p, marked, list, todo); marked <= r.marked && list <= r.list
  {
    hide Waits, Now;
  }

  /** Added entries are marked, and are led to. */
  lemma AddsMarked(code: Code, s: seq<Byte>, p: nat, marked: set<nat>, list: seq<nat>, pc: nat, v: nat)
    requires v in Work(code, s, p, marked, list, [pc]).list && v !in list
    ensures v in Work(code, s, p, marked, list, [pc]).marked && Leads(code, false, pc, v)
  {
    hide Leads, Work;
    WorkLonger(code, s, p, marked, list, [pc]);
    WorkFrom(code, s, p, marked, list, pc);
    var r := Work(code, s, p, marked, list, [pc]);
    var i :| 0 <= i < |r.list| && r.list[i] == v;
    assert r.list[..|list|] == list;
  }

  lemma IsGranted(code: Code, s: seq<Byte>, p: nat, a: nat, v: nat)
    requires ApartAt(code, s, p) && a < |code| && Postponed(code[a]) && Holds(code[a].assertion, s, p)
             && Leads(code, false, a + 1, v)
    requires v < |code| && Waits(code[v])
    ensures !Brought(code, s, p, v)
  {
    hide Leads, Brought, Waits, Postponed, Holds;
  }

  lemma IsBrought(code: Code, s: seq<Byte>, p: nat, c: nat, v: nat)
    requires ByteRoot(code, s, p, c + 1) && Leads(code, false, c + 1, v)
    ensures Brought(code, s, p, v)
  {
    hide Leads, ByteRoot;
  }

  lemma NeatAhead(code: Code, s: seq<Byte>, p: nat, w: Walk, r: Seen)
    requires Neat(code, s, p, w) && ApartAt(code, s, p) && w.k < |w.list|
    requires var a := w.list[w.k]; a < |code| && Postponed(code[a]) && Holds(code[a].assertion, s, p)
    requires r == Work(code, s, p, w.here, w.list, [w.list[w.k] + 1])
    ensures Neat(code, s, p, Walk(r.marked, w.there - r.marked, r.list, w.next, w.k + 1))
  {
    hide Leads, Work, Waits, Postponed, Holds, Brought, ApartAt;
    var a := w.list[w.k];
    WorkLonger(code, s, p, w.here, w.list, [a + 1]);
    WorkFrom(code, s, p, w.here, w.list, a + 1);
    forall v: nat | v in w.list && v !in w.here && v < |code| && Waits(code[v]) ensures !Leads(code, false, a + 1, v) {
      if Leads(code, false, a + 1, v) { IsGranted(code, s, p, a, v); }
    }
    AddsDistinct(code, s, p, w.here, w.list, a + 1);
    forall v | v in r.list ensures v in r.marked || Brought(code, s, p, v) {
      if v !in w.list { AddsMarked(code, s, p, w.here, w.list, a + 1, v); }
    }
    forall v | v in w.next ensures v in w.there - r.marked && Brought(code, s, p, v) {
      if v in r.marked { IsGranted(code, s, p, a, v); }
    }
  }

  lemma NeatByte(code: Code, s: seq<Byte>, p: nat, w: Walk, r: Seen)
    requires Neat(code, s, p, w) && w.k < |w.list| && ByteRoot(code, s, p, w.list[w.k] + 1)
    requires r == Work(code, s, p + 1, w.there, w.next, [w.list[w.k] + 1])
    ensures Neat(code, s, p, Walk(w.here - r.marked, r.marked, w.list, r.list, w.k + 1))
  {
    hide Leads, Work, Waits, Brought, ByteRoot;
    var c := w.list[w.k];
    WorkLonger(code, s, p + 1, w.there, w.next, [c + 1]);
    WorkFrom(code, s, p + 1, w.there, w.next, c + 1);
    AddsDistinct(code, s, p + 1, w.there, w.next, c + 1);
    forall v | v in w.list ensures v in w.here - r.marked || Brought(code, s, p, v) {
      if v in w.here && v in r.marked { IsBrought(code, s, p, c, v); }
    }
    forall v | v in r.list ensures v in r.marked && Brought(code, s, p, v) {
      if v !in w.next {
        AddsMarked(code, s, p + 1, w.there, w.next, c + 1, v);
        IsBrought(code, s, p, c, v);
      }
    }
  }

  /** Every thread leaves the lists without duplicates. */
  lemma NeatStep(code: Code, s: seq<Byte>, p: nat, w: Walk)
    requires Neat(code, s, p, w) && ApartAt(code, s, p) && w.k < |w.list| && RunOne(code, s, p, w).Some?
    ensures Neat(code, s, p, RunOne(code, s, p, w).value)
  {
    NeatIdle(code, s, p, w);
    hide Neat, ApartAt, Work, Holds;
    var pc := w.list[w.k];
    if pc < |code| && Postponed(code[pc]) && Holds(code[pc].assertion, s, p) {
      NeatAhead(code, s, p, w, Work(code, s, p, w.here, w.list, [pc + 1]));
    } else if pc < |code| && p < |s| && code[pc].Consuming() && code[pc].Accepts(s[p]) {
      NeatByte(code, s, p, w, Work(code, s, p + 1, w.there, w.next, [pc + 1]));
    }
  }

  lemma NeatIdle(code: Code, s: seq<Byte>, p: nat, w: Walk)
    requires Neat(code, s, p, w) && w.k < |w.list|
    ensures Neat(code, s, p, w.(k := w.k + 1))
  {
    hide Brought, Waits;
  }

  lemma NeatOnto(code: Code, s: seq<Byte>, p: nat, w: Walk)
    requires Neat(code, s, p, w)
    ensures Neat(code, s, p + 1, Onto(w))
  {
    hide Brought, Waits;
  }

  lemma NeatStart(code: Code, s: seq<Byte>)
    ensures Neat(code, s, 0, Start(code, s))
  {
    hide Leads, Work, Waits, Brought;
    AddsDistinct(code, s, 0, {}, [], 0);
    var r := Work(code, s, 0, {}, [], [0]);
    forall v | v in r.list ensures v in r.marked { AddsMarked(code, s, 0, {}, [], 0, v); }
  }

  /** Different instructions are no more than the program has. */
  lemma NeatFits(code: Code, s: seq<Byte>, p: nat, w: Walk)
    requires Neat(code, s, p, w)
    ensures |w.list| <= |code| && |w.next| <= |code| && w.k <= |w.list|
  {
    hide Kept, AllBrought, Waits;
    AtMost(|code|, w.list, 0);
    AtMost(|code|, w.next, 0);
  }

  /** An answer soon, and until then both lists fit. */
  lemma {:induction false} GoFits(code: Code, s: seq<Byte>, p: nat, w: Walk, fuel: nat)
    requires p <= |s| && Neat(code, s, p, w) && forall q: nat :: ApartAt(code, s, q)
    ensures var r := Go(code, s, p, w, fuel);
            && (r.Open? ==> |r.walk.list| <= |code| && |r.walk.next| <= |code|)
            && (fuel + w.k >= (|s| - p) * |code| + |code| ==> r.Ended?)
    decreases |s| - p, fuel
  {
    hide Neat, ApartAt, RunOne, Go;
    NeatFits(code, s, p, w);
    GoOn(code, s, p, w, fuel);
    if w.list != [] && w.k < |w.list| {
      More(|s| - p, |code|);
      if fuel > 0 && RunOne(code, s, p, w).Some? {
        var w' := RunOne(code, s, p, w).value;
        assert w'.k == w.k + 1;
        NeatStep(code, s, p, w);
        GoFits(code, s, p, w', fuel - 1);
      }
    } else if w.list != [] && p < |s| {
      NeatOnto(code, s, p, w);
      Scaled(|s| - p - 1, |code|);
      GoFits(code, s, p + 1, Onto(w), fuel);
    }
  }

  lemma More(a: nat, b: nat)
    ensures a * b >= 0
  {
  }

  /** Where assertions and bytes are apart, both lists always fit, and no more threads are
      run than a program length for each position. */
  lemma ApartFits(code: Code, s: seq<Byte>, fuel: nat)
    requires forall p: nat :: ApartAt(code, s, p)
    ensures var r := SearchAhead(code, s, fuel);
            && (r.Open? ==> |r.walk.list| <= |code| && |r.walk.next| <= |code|)
            && (fuel >= (|s| + 1) * |code| ==> r.Ended?)
  {
    hide ApartAt, Neat, Go, Start;
    NeatStart(code, s);
    StartAtZero(code, s);
    Scaled(|s|, |code|);
    GoFits(code, s, 0, Start(code, s), fuel);
  }

  /** Without look-ahead they are. */
  lemma FreeApart(code: Code, s: seq<Byte>, p: nat)
    requires CodeLookAheadFree(code)
    ensures ApartAt(code, s, p)
  {
    hide Leads, Holds, Brought, Waits;
  }
}
