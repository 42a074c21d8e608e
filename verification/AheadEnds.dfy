/** When a search with look-ahead assertions ends.

    What can keep it going is a look-ahead assertion that follows itself without a byte,
    if what follows it and what follows an instruction that consumes the byte there lie
    on one cycle of steps that need no byte and no look-ahead: then each of the two can
    take back the marks of the other for ever.  Without that, or where a match ends, the
    search comes to an end. */
module AheadEnds {
  import opened Regexes
  import opened Bytecode
  import opened Programs
  import opened Finite
  import opened Thompson
  import opened ThompsonMatching
  import opened AheadMachine
  import opened PikePriority
  import opened Ranks

  /** The steps from an instruction that consume nothing, whatever an assertion says:
      through look-ahead only when `look` is set. */
  function Steps(code: Code, look: bool, v: nat): seq<nat> {
    if v >= |code| then []
    else match code[v]
      case Jmp(x) => [x]
      case Split(x, y) => [x, y]
      case Save(_) => [v + 1]
      case Look(a) => if look || !a.LookAhead() then [v + 1] else []
      case _ => []
  }

  ghost predicate Path(code: Code, look: bool, u: nat, v: nat, n: nat)
    decreases n
  {
    if n == 0 then u == v else exists m: nat :: m in Steps(code, look, u) && Path(code, look, m, v, n - 1)
  }

  ghost predicate Leads(code: Code, look: bool, u: nat, v: nat) {
    exists n: nat :: Path(code, look, u, v, n)
  }

  /** A look-ahead assertion on a cycle that consumes nothing. */
  ghost predicate Circles(code: Code, a: nat) {
    a < |code| && Postponed(code[a]) && Leads(code, true, a + 1, a)
  }

  /** What follows the assertion at `a` and what follows the byte at `c` lie on one
      cycle of immediate steps. */
  ghost predicate Tangled(code: Code, a: nat, c: nat) {
    && Circles(code, a) && c < |code| && code[c].Consuming()
    && Leads(code, false, a + 1, c + 1) && Leads(code, false, c + 1, a + 1)
  }

  /** ... and the assertion holds where the byte is consumed. */
  ghost predicate TangledAt(code: Code, s: seq<Byte>, p: nat) {
    p < |s| && exists a: nat, c: nat :: Tangled(code, a, c) && Holds(code[a].assertion, s, p) && code[c].Accepts(s[p])
  }

  lemma {:induction false} PathTwice(code: Code, look: bool, u: nat, v: nat, w: nat, m: nat, n: nat)
    requires Path(code, look, u, v, m) && Path(code, look, v, w, n)
    ensures Path(code, look, u, w, m + n)
    decreases m
  {
    hide Steps;
    if m > 0 {
      var x: nat :| x in Steps(code, look, u) && Path(code, look, x, v, m - 1);
      PathTwice(code, look, x, v, w, m - 1, n);
    }
  }

  lemma LeadsTwice(code: Code, look: bool, u: nat, v: nat, w: nat)
    requires Leads(code, look, u, v) && Leads(code, look, v, w)
    ensures Leads(code, look, u, w)
  {
    hide Path;
    var m: nat :| Path(code, look, u, v, m);
    var n: nat :| Path(code, look, v, w, n);
    PathTwice(code, look, u, v, w, m, n);
  }

  lemma LeadsSelf(code: Code, look: bool, u: nat)
    ensures Leads(code, look, u, u)
  {
    assert Path(code, look, u, u, 0);
  }

  lemma LeadsStep(code: Code, look: bool, u: nat, v: nat)
    requires v in Steps(code, look, u)
    ensures Leads(code, look, u, v)
  {
    hide Steps;
    assert Path(code, look, v, v, 0);
    assert Path(code, look, u, v, 1);
  }

  lemma {:induction false} PathLooks(code: Code, u: nat, v: nat, n: nat)
    requires Path(code, false, u, v, n)
    ensures Path(code, true, u, v, n)
    decreases n
  {
    if n > 0 {
      var x: nat :| x in Steps(code, false, u) && Path(code, false, x, v, n - 1);
      PathLooks(code, x, v, n - 1);
      assert x in Steps(code, true, u);
    }
  }

  lemma LeadsLooks(code: Code, u: nat, v: nat)
    requires Leads(code, false, u, v)
    ensures Leads(code, true, u, v)
  {
    hide Path;
    var n: nat :| Path(code, false, u, v, n);
    PathLooks(code, u, v, n);
  }

  /* What following visits. */

  ghost predicate Behind(code: Code, todo: seq<nat>, v: nat) {
    exists t :: t in todo && Leads(code, false, t, v)
  }

  lemma BehindNow(code: Code, s: seq<Byte>, p: nat, todo: seq<nat>, v: nat)
    requires todo != [] && todo[0] < |code| && Behind(code, Now(code, s, p, todo[0]) + todo[1..], v)
    ensures Behind(code, todo, v)
  {
    var pc := todo[0];
    assert forall t :: t in Now(code, s, p, pc) ==> t in Steps(code, false, pc);
    hide Leads, Now, Steps;
    var t :| t in Now(code, s, p, pc) + todo[1..] && Leads(code, false, t, v);
    if t in Now(code, s, p, pc) {
      LeadsStep(code, false, pc, t);
      LeadsTwice(code, false, pc, t, v);
    }
  }

  lemma BehindFirst(code: Code, todo: seq<nat>)
    requires todo != []
    ensures Behind(code, todo, todo[0]) && forall v :: Behind(code, todo[1..], v) ==> Behind(code, todo, v)
  {
    LeadsSelf(code, false, todo[0]);
    hide Leads;
  }

  /** What is on the list behind `list` is marked, waits, and is there once. */
  ghost predicate ListedOnce(code: Code, marked: set<nat>, list: seq<nat>, r: Seen) {
    && (forall i :: |list| <= i < |r.list| ==> r.list[i] in r.marked && r.list[i] !in marked && r.list[i] < |code|
                                               && Waits(code[r.list[i]]))
    && (forall i, j :: |list| <= i < j < |r.list| ==> r.list[i] != r.list[j])
  }

  lemma OneMoreListed(code: Code, marked: set<nat>, list: seq<nat>, pc: nat, r: Seen)
    requires list + [pc] <= r.list && marked + {pc} <= r.marked && pc !in marked && pc < |code| && Waits(code[pc])
    requires ListedOnce(code, marked + {pc}, list + [pc], r)
    ensures ListedOnce(code, marked, list, r)
  {
    hide Waits;
    assert r.list[|list|] == pc;
  }

  lemma NoneListed(code: Code, marked: set<nat>, list: seq<nat>)
    ensures ListedOnce(code, marked, list, Seen(marked, list))
  {
  }

  lemma OneMoreMarked(code: Code, marked: set<nat>, list: seq<nat>, pc: nat, r: Seen)
    requires ListedOnce(code, marked + {pc}, list, r)
    ensures ListedOnce(code, marked, list, r)
  {
    hide Waits;
  }

  /** Only what can be led to is marked, and each instruction marked is listed at most
      once. */
  lemma {:induction false} WorkNew(code: Code, s: seq<Byte>, p: nat, marked: set<nat>, list: seq<nat>, todo: seq<nat>)
    ensures var r := Work(code, s, p, marked, list, todo);
            && (forall v :: v in r.marked && v !in marked ==> v < |code| && Behind(code, todo, v))
            && ListedOnce(code, marked, list, r)
    decreases UpTo(|code|) - marked, |todo|
  {
    hide Waits, Now, Leads, Behind, ListedOnce;
    if todo == [] {
      NoneListed(code, marked, list);
    } else {
      var pc, rest := todo[0], todo[1..];
      var r := Work(code, s, p, marked, list, todo);
      BehindFirst(code, todo);
      if pc >= |code| || pc in marked {
        WorkNew(code, s, p, marked, list, rest);
      } else if Waits(code[pc]) {
        WorkNew(code, s, p, marked + {pc}, list + [pc], rest);
        OneMoreListed(code, marked, list, pc, r);
      } else {
        WorkNew(code, s, p, marked + {pc}, list, Now(code, s, p, pc) + rest);
        OneMoreMarked(code, marked, list, pc, r);
        forall v | Behind(code, Now(code, s, p, pc) + rest, v)
          ensures Behind(code, todo, v) { BehindNow(code, s, p, todo, v); }
      }
    }
  }

  /** No more than `n` different indices below `n` are behind `k`. */
  lemma AtMost(n: nat, list: seq<nat>, k: nat)
    requires k <= |list| && forall i :: k <= i < |list| ==> list[i] < n
    requires forall i, j :: k <= i < j < |list| ==> list[i] != list[j]
    ensures |list| - k <= n
  {
    var added := list[k..];
    assert forall i :: 0 <= i < |added| ==> added[i] == list[k + i];
    Smaller(Elements(added), UpTo(n));
  }

  /** One instruction, followed with its kin. */
  lemma WorkFrom(code: Code, s: seq<Byte>, p: nat, marked: set<nat>, list: seq<nat>, pc: nat)
    ensures var r := Work(code, s, p, marked, list, [pc]);
            && (forall v :: v in r.marked && v !in marked ==> v < |code| && Leads(code, false, pc, v))
            && (forall i :: |list| <= i < |r.list| ==> r.list[i] in r.marked && r.list[i] !in marked
                                                       && r.list[i] < |code|)
            && |r.list| - |list| <= |code|
            && (pc >= |code| || pc in marked ==> r == Seen(marked, list))
            && (pc < |code| ==> pc in r.marked)
  {
    hide Leads, Now, Waits;
    WorkNew(code, s, p, marked, list, [pc]);
    var r := Work(code, s, p, marked, list, [pc]);
    AtMost(|code|, r.list, |list|);
    assert [pc][1..] == [];
    if pc < |code| { MarksFirst(code, s, p, marked, list, [pc]); }
  }

  /* Depths. */

  ghost function Above(code: Code, look: bool, v: nat): set<nat> {
    set u | 0 <= u < |code| && Leads(code, look, u, v)
  }

  ghost function Depth(code: Code, look: bool, v: nat): (d: nat)
    ensures d <= |code|
  {
    Smaller(Above(code, look, v), UpTo(|code|));
    |Above(code, look, v)|
  }

  lemma Deeper(code: Code, look: bool, u: nat, v: nat)
    requires Leads(code, look, u, v)
    ensures Depth(code, look, u) <= Depth(code, look, v)
    ensures v < |code| && !Leads(code, look, v, u) ==> Depth(code, look, u) < Depth(code, look, v)
  {
    hide Leads;
    var a, b := Above(code, look, u), Above(code, look, v);
    forall x | x in a ensures x in b { LeadsTwice(code, look, x, u, v); }
    Smaller(a, b);
    LeadsSelf(code, look, v);
    if v < |code| && !Leads(code, look, v, u) { Smaller(a, b - {v}); }
  }

  /** Two depths in one number: those of roots are even, those of entries odd. */
  ghost function RootDepth(code: Code, v: nat): nat {
    2 * (Depth(code, true, v) * (|code| + 1) + Depth(code, false, v))
  }

  ghost function EntryDepth(code: Code, v: nat): nat {
    2 * (Depth(code, true, v) * (|code| + 1) + |code|) + 1
  }

  function Deepest(n: nat): nat {
    2 * (n * (n + 1) + n) + 2
  }

  lemma Scaled(n: nat, e: nat)
    ensures (n + 1) * e == n * e + e && (2 * n + 1) * e == n * e + n * e + e
  {
  }

  lemma {:induction false} Product(a: nat, b: nat, n: nat)
    ensures a <= b ==> a * n <= b * n
    ensures a < b ==> a * n + n <= b * n
    decreases b
  {
    if a < b {
      Product(a, b - 1, n);
      Scaled(b - 1, n);
    }
  }

  lemma DepthBounds(code: Code, v: nat)
    ensures RootDepth(code, v) < EntryDepth(code, v) < Deepest(|code|)
  {
    hide Depth;
    Product(Depth(code, true, v), |code|, |code| + 1);
  }

  lemma RootsDeeper(code: Code, u: nat, v: nat)
    requires Leads(code, false, u, v) && !Leads(code, false, v, u) && v < |code|
    ensures RootDepth(code, u) < RootDepth(code, v)
  {
    hide Leads, Depth;
    Deeper(code, false, u, v);
    LeadsLooks(code, u, v);
    Deeper(code, true, u, v);
    Product(Depth(code, true, u), Depth(code, true, v), |code| + 1);
  }

  lemma EntryBelowRoot(code: Code, u: nat, v: nat)
    requires Leads(code, false, u, v)
    ensures RootDepth(code, u) < EntryDepth(code, v)
  {
    hide Leads, Depth;
    LeadsLooks(code, u, v);
    Deeper(code, true, u, v);
    Product(Depth(code, true, u), Depth(code, true, v), |code| + 1);
  }

  /** Behind an assertion that does not follow itself everything is deeper. */
  lemma BelowEntry(code: Code, a: nat, v: nat)
    requires a < |code| && Postponed(code[a]) && !Circles(code, a) && Leads(code, false, a + 1, v) && v < |code|
    ensures EntryDepth(code, a) < RootDepth(code, v) && EntryDepth(code, a) < EntryDepth(code, v)
  {
    LeadsStep(code, true, a, a + 1);
    hide Leads, Depth;
    LeadsLooks(code, a + 1, v);
    LeadsTwice(code, true, a, a + 1, v);
    if Leads(code, true, v, a) { LeadsTwice(code, true, a + 1, v, a); }
    Deeper(code, true, a, v);
    Product(Depth(code, true, a), Depth(code, true, v), |code| + 1);
  }

  /* The measure. */

  ghost function Weight(n: nat, d: nat): (w: nat)
    requires d <= Deepest(n)
    ensures w >= 1
    decreases Deepest(n) - d
  {
    if d == Deepest(n) then 1 else (2 * n + 1) * Weight(n, d + 1)
  }

  lemma {:induction false} Lighter(n: nat, d: nat, d': nat)
    requires d < d' <= Deepest(n)
    ensures Weight(n, d) >= (2 * n + 1) * Weight(n, d')
    decreases d' - d
  {
    hide Deepest;
    if d + 1 < d' {
      Lighter(n, d + 1, d');
      Product(1, 2 * n + 1, Weight(n, d + 1));
    }
  }

  /** What follows an assertion that holds and follows itself. */
  ghost predicate AheadRoot(code: Code, s: seq<Byte>, p: nat, v: nat) {
    v > 0 && Circles(code, v - 1) && Holds(code[v - 1].assertion, s, p)
  }

  /** What follows an instruction that consumes the byte. */
  predicate ByteRoot(code: Code, s: seq<Byte>, p: nat, v: nat) {
    0 < v <= |code| && p < |s| && code[v - 1].Consuming() && code[v - 1].Accepts(s[p])
  }

  ghost function RootWeight(code: Code, s: seq<Byte>, p: nat, here: set<nat>, there: set<nat>, v: nat): nat {
    DepthBounds(code, v);
    if (AheadRoot(code, s, p, v) && v !in here) || (ByteRoot(code, s, p, v) && v !in there)
        then Weight(|code|, RootDepth(code, v)) else 0
  }

  ghost function Roots(code: Code, s: seq<Byte>, p: nat, here: set<nat>, there: set<nat>, n: nat): nat {
    if n == 0 then 0 else Roots(code, s, p, here, there, n - 1) + RootWeight(code, s, p, here, there, n - 1)
  }

  ghost function EntryWeight(code: Code, s: seq<Byte>, p: nat, v: nat): nat {
    DepthBounds(code, v);
    if v < |code| && Postponed(code[v]) && Holds(code[v].assertion, s, p) && !Circles(code, v)
        then Weight(|code|, EntryDepth(code, v)) else 0
  }

  ghost function Entries(code: Code, s: seq<Byte>, p: nat, list: seq<nat>): nat {
    if list == [] then 0 else Entries(code, s, p, list[..|list| - 1]) + EntryWeight(code, s, p, list[|list| - 1])
  }

  ghost function Measure(code: Code, s: seq<Byte>, p: nat, w: Walk): nat
    requires w.k <= |w.list|
  {
    Roots(code, s, p, w.here, w.there, |code|) + Entries(code, s, p, w.list[w.k..])
  }

  /** Pointwise at most `extra` more, and one root gone. */
  lemma {:induction false} RootsLess(code: Code, s: seq<Byte>, p: nat, here: set<nat>, there: set<nat>,
                                     here': set<nat>, there': set<nat>,
                                     extra: nat, gone: nat, r: nat, n: nat)
    requires forall v: nat :: v < n ==>
             RootWeight(code, s, p, here', there', v) <= RootWeight(code, s, p, here, there, v) + extra
    requires r < n ==> RootWeight(code, s, p, here', there', r) + gone <= RootWeight(code, s, p, here, there, r)
    ensures Roots(code, s, p, here', there', n) + (if r < n then gone else 0) <= Roots(code, s, p, here, there, n) +
            n * extra
    decreases n
  {
    hide RootWeight;
    if n > 0 {
      RootsLess(code, s, p, here, there, here', there', extra, gone, r, n - 1);
      Scaled(n - 1, extra);
    }
  }

  lemma {:induction false} EntriesMore(code: Code, s: seq<Byte>, p: nat, list: seq<nat>, added: seq<nat>, extra: nat)
    requires forall i :: 0 <= i < |added| ==> EntryWeight(code, s, p, added[i]) <= extra
    ensures Entries(code, s, p, list + added) <= Entries(code, s, p, list) + |added| * extra
    decreases |added|
  {
    hide EntryWeight;
    if added == [] {
      assert list + added == list;
    } else {
      var front := added[..|added| - 1];
      EntriesMore(code, s, p, list, front, extra);
      assert (list + added)[..|list + added| - 1] == list + front;
      Scaled(|front|, extra);
      assert |added| == |front| + 1;
    }
  }

  lemma {:induction false} EntriesTail(code: Code, s: seq<Byte>, p: nat, list: seq<nat>)
    requires list != []
    ensures Entries(code, s, p, list) == EntryWeight(code, s, p, list[0]) + Entries(code, s, p, list[1..])
    decreases |list|
  {
    hide EntryWeight;
    if |list| > 1 {
      var front := list[..|list| - 1];
      EntriesTail(code, s, p, front);
      assert front[1..] == list[1..][..|list| - 2];
    } else {
      assert list[..0] == [] && list[1..] == [];
    }
  }

  /** What an effective step gives up outweighs what it lets loose. */
  lemma Outweighs(n: nat, d: nat, extra: nat, count: nat)
    requires d < Deepest(n) && extra == Weight(n, d + 1) && count <= n
    ensures Weight(n, d) > n * extra + count * extra
  {
    hide Deepest;
    Lighter(n, d, d + 1);
    Product(count, n, extra);
    Scaled(n, extra);
  }

  lemma NotHeavier(n: nat, d: nat, d': nat)
    requires d < d' <= Deepest(n)
    ensures Weight(n, d') <= Weight(n, d + 1)
  {
    hide Deepest;
    if d + 1 < d' {
      Lighter(n, d + 1, d');
      Product(1, 2 * n + 1, Weight(n, d'));
    }
  }

  /** An instruction is not both kinds of root. */
  lemma OneKind(code: Code, s: seq<Byte>, p: nat, v: nat)
    ensures !(AheadRoot(code, s, p, v) && ByteRoot(code, s, p, v))
  {
  }

  lemma Untangled(code: Code, s: seq<Byte>, p: nat, a: nat, c: nat)
    requires !TangledAt(code, s, p) && Circles(code, a) && Holds(code[a].assertion, s, p) && ByteRoot(code, s, p, c + 1)
    ensures !(Leads(code, false, a + 1, c + 1) && Leads(code, false, c + 1, a + 1))
  {
    hide Circles, Leads;
    var tangled := Tangled(code, a, c);
  }

  /** Roots after an assertion at `a` that held. */
  lemma AheadRoots(code: Code, s: seq<Byte>, p: nat, here: set<nat>, there: set<nat>, marked: set<nat>, a: nat,
                   d: nat, v: nat)
    requires !TangledAt(code, s, p) && a < |code| && Postponed(code[a]) && Holds(code[a].assertion, s, p) && v < |code|
    requires here !! there && here <= marked && forall x :: x in marked && x !in here ==>
             x < |code| && Leads(code, false, a + 1, x)
    requires d == (if Circles(code, a) then RootDepth(code, a + 1) else EntryDepth(code, a)) && d < Deepest(|code|)
    ensures RootWeight(code, s, p, marked, there - marked, v) <= RootWeight(code, s, p, here, there, v) +
            Weight(|code|, d + 1)
  {
    hide Leads, Deepest, Weight, RootDepth, EntryDepth;
    DepthBounds(code, v);
    if ByteRoot(code, s, p, v) && v in there && v in marked {
      if Circles(code, a) {
        Untangled(code, s, p, a, v - 1);
        RootsDeeper(code, a + 1, v);
      } else {
        BelowEntry(code, a, v);
      }
      NotHeavier(|code|, d, RootDepth(code, v));
    }
  }

  /** Roots after a byte consumed at `c`. */
  lemma ByteRoots(code: Code, s: seq<Byte>, p: nat, here: set<nat>, there: set<nat>, marked: set<nat>, c: nat, v: nat)
    requires !TangledAt(code, s, p) && ByteRoot(code, s, p, c + 1) && v < |code|
    requires here !! there && there <= marked && forall x :: x in marked && x !in there ==>
             x < |code| && Leads(code, false, c + 1, x)
    requires RootDepth(code, c + 1) < Deepest(|code|)
    ensures RootWeight(code, s, p, here - marked, marked, v) <= RootWeight(code, s, p, here, there, v) +
            Weight(|code|, RootDepth(code, c + 1) + 1)
  {
    hide Leads, Deepest, Weight, RootDepth, EntryDepth;
    DepthBounds(code, v);
    if AheadRoot(code, s, p, v) && v in here && v in marked {
      Untangled(code, s, p, v - 1, c);
      RootsDeeper(code, c + 1, v);
      NotHeavier(|code|, RootDepth(code, c + 1), RootDepth(code, v));
    }
  }

  /* One thread. */

  /** What is left on a list after one thread. */
  lemma RestOf(list: seq<nat>, list': seq<nat>, k: nat)
    requires k < |list| && list <= list'
    ensures list[k..] != [] && list[k..][0] == list[k] && list[k..][1..] == list[k + 1..]
    ensures list'[k + 1..] == list[k + 1..] + list'[|list|..]
  {
  }

  lemma EntriesStep(code: Code, s: seq<Byte>, p: nat, list: seq<nat>, list': seq<nat>, k: nat, extra: nat)
    requires k < |list| && list <= list'
    requires forall i :: |list| <= i < |list'| ==> EntryWeight(code, s, p, list'[i]) <= extra
    ensures Entries(code, s, p, list'[k + 1..]) + EntryWeight(code, s, p, list[k])
            <= Entries(code, s, p, list[k..]) + (|list'| - |list|) * extra
  {
    hide Entries, EntryWeight;
    RestOf(list, list', k);
    EntriesTail(code, s, p, list[k..]);
    EntriesMore(code, s, p, list[k + 1..], list'[|list|..], extra);
  }

  lemma RootOn(code: Code, s: seq<Byte>, p: nat, here: set<nat>, there: set<nat>, v: nat)
    requires RootDepth(code, v) < Deepest(|code|)
    ensures AheadRoot(code, s, p, v) && v !in here ==>
            RootWeight(code, s, p, here, there, v) == Weight(|code|, RootDepth(code, v))
    ensures ByteRoot(code, s, p, v) && v !in there ==>
            RootWeight(code, s, p, here, there, v) == Weight(|code|, RootDepth(code, v))
    ensures AheadRoot(code, s, p, v) && v in here ==> RootWeight(code, s, p, here, there, v) == 0
    ensures ByteRoot(code, s, p, v) && v in there ==> RootWeight(code, s, p, here, there, v) == 0
  {
    hide AheadRoot, ByteRoot, RootDepth, Weight, Deepest;
    OneKind(code, s, p, v);
  }

  lemma EntryOn(code: Code, s: seq<Byte>, p: nat, a: nat)
    requires a < |code| && Postponed(code[a]) && Holds(code[a].assertion, s, p) && !Circles(code, a)
    requires EntryDepth(code, a) < Deepest(|code|)
    ensures EntryWeight(code, s, p, a) == Weight(|code|, EntryDepth(code, a))
  {
    hide Circles, Holds, EntryDepth, Weight, Deepest;
  }

  lemma EntryLight(code: Code, s: seq<Byte>, p: nat, v: nat, d: nat)
    requires d < EntryDepth(code, v) || EntryWeight(code, s, p, v) == 0
    requires d < Deepest(|code|)
    ensures EntryWeight(code, s, p, v) <= Weight(|code|, d + 1)
  {
    hide EntryDepth, Weight, Deepest, Circles, Holds;
    DepthBounds(code, v);
    if EntryWeight(code, s, p, v) != 0 { NotHeavier(|code|, d, EntryDepth(code, v)); }
  }

  /** An assertion on a cycle lets loose only what is deeper. */
  lemma CircleStep(code: Code, s: seq<Byte>, p: nat, w: Walk, r: Seen)
    requires w.k < |w.list| && w.here !! w.there && !TangledAt(code, s, p)
    requires var a := w.list[w.k]; AheadRoot(code, s, p, a + 1) && a + 1 < |code| && a + 1 !in w.here
    requires r == Work(code, s, p, w.here, w.list, [w.list[w.k] + 1])
    ensures Measure(code, s, p, Walk(r.marked, w.there - r.marked, r.list, w.next, w.k + 1)) < Measure(code, s, p, w)
  {
    hide Work, Leads, Holds, Weight, Deepest, RootDepth, EntryDepth, RootWeight, EntryWeight, Roots, Entries,
        TangledAt, Depth;
    var a, n := w.list[w.k], |code|;
    var d := RootDepth(code, a + 1);
    DepthBounds(code, a + 1);
    var extra, count := Weight(n, d + 1), |r.list| - |w.list|;
    WorkFrom(code, s, p, w.here, w.list, a + 1);
    forall v: nat | v < n
      ensures RootWeight(code, s, p, r.marked, w.there - r.marked, v) <= RootWeight(code, s, p, w.here, w.there, v) +
              extra {
      AheadRoots(code, s, p, w.here, w.there, r.marked, a, d, v);
    }
    RootOn(code, s, p, w.here, w.there, a + 1);
    RootOn(code, s, p, r.marked, w.there - r.marked, a + 1);
    RootsLess(code, s, p, w.here, w.there, r.marked, w.there - r.marked, extra, Weight(n, d), a + 1, n);
    forall i | |w.list| <= i < |r.list| ensures EntryWeight(code, s, p, r.list[i]) <= extra {
      EntryBelowRoot(code, a + 1, r.list[i]);
      EntryLight(code, s, p, r.list[i], d);
    }
    EntriesStep(code, s, p, w.list, r.list, w.k, extra);
    Outweighs(n, d, extra, count);
  }

  /** So does one that does not follow itself. */
  lemma EntryStep(code: Code, s: seq<Byte>, p: nat, w: Walk, r: Seen)
    requires w.k < |w.list| && w.here !! w.there && !TangledAt(code, s, p)
    requires var a := w.list[w.k]; a < |code| && Postponed(code[a]) && Holds(code[a].assertion, s, p)
                                   && !Circles(code, a)
    requires r == Work(code, s, p, w.here, w.list, [w.list[w.k] + 1])
    ensures Measure(code, s, p, Walk(r.marked, w.there - r.marked, r.list, w.next, w.k + 1)) < Measure(code, s, p, w)
  {
    hide Work, Leads, Holds, Weight, Deepest, RootDepth, EntryDepth, RootWeight, EntryWeight, Roots, Entries,
        TangledAt, Depth, Circles;
    var a, n := w.list[w.k], |code|;
    var d := EntryDepth(code, a);
    DepthBounds(code, a);
    EntryOn(code, s, p, a);
    var extra, count := Weight(n, d + 1), |r.list| - |w.list|;
    WorkFrom(code, s, p, w.here, w.list, a + 1);
    forall v: nat | v < n
      ensures RootWeight(code, s, p, r.marked, w.there - r.marked, v) <= RootWeight(code, s, p, w.here, w.there, v) +
              extra {
      AheadRoots(code, s, p, w.here, w.there, r.marked, a, d, v);
    }
    RootsLess(code, s, p, w.here, w.there, r.marked, w.there - r.marked, extra, 0, n, n);
    forall i | |w.list| <= i < |r.list| ensures EntryWeight(code, s, p, r.list[i]) <= extra {
      BelowEntry(code, a, r.list[i]);
      EntryLight(code, s, p, r.list[i], d);
    }
    EntriesStep(code, s, p, w.list, r.list, w.k, extra);
    Outweighs(n, d, extra, count);
  }

  /** A byte lets loose only what is deeper. */
  lemma ByteStep(code: Code, s: seq<Byte>, p: nat, w: Walk, r: Seen)
    requires w.k < |w.list| && w.here !! w.there && !TangledAt(code, s, p)
    requires var c := w.list[w.k]; ByteRoot(code, s, p, c + 1) && c + 1 < |code| && c + 1 !in w.there
    requires r == Work(code, s, p + 1, w.there, w.next, [w.list[w.k] + 1])
    ensures Measure(code, s, p, Walk(w.here - r.marked, r.marked, w.list, r.list, w.k + 1)) < Measure(code, s, p, w)
  {
    hide Work, Leads, Weight, Deepest, RootDepth, RootWeight, EntryWeight, Roots, Entries, TangledAt, Depth;
    var c, n := w.list[w.k], |code|;
    var d := RootDepth(code, c + 1);
    DepthBounds(code, c + 1);
    var extra := Weight(n, d + 1);
    WorkFrom(code, s, p + 1, w.there, w.next, c + 1);
    forall v: nat | v < n
      ensures RootWeight(code, s, p, w.here - r.marked, r.marked, v) <= RootWeight(code, s, p, w.here, w.there, v) +
              extra {
      ByteRoots(code, s, p, w.here, w.there, r.marked, c, v);
    }
    RootOn(code, s, p, w.here, w.there, c + 1);
    RootOn(code, s, p, w.here - r.marked, r.marked, c + 1);
    RootsLess(code, s, p, w.here, w.there, w.here - r.marked, r.marked, extra, Weight(n, d), c + 1, n);
    EntriesStep(code, s, p, w.list, w.list, w.k, extra);
    Outweighs(n, d, extra, 0);
  }

  /** One thread is done with, and nothing else has changed. */
  lemma IdleStep(code: Code, s: seq<Byte>, p: nat, w: Walk)
    requires w.k < |w.list|
    ensures Measure(code, s, p, w.(k := w.k + 1)) <= Measure(code, s, p, w)
  {
    hide Roots, Entries, EntryWeight;
    EntriesStep(code, s, p, w.list, w.list, w.k, 0);
  }

  /** Every thread makes the measure smaller, or leaves the list one shorter. */
  lemma StepLess(code: Code, s: seq<Byte>, p: nat, w: Walk)
    requires w.k < |w.list| && w.here !! w.there && !TangledAt(code, s, p) && RunOne(code, s, p, w).Some?
    ensures var w' := RunOne(code, s, p, w).value;
            && w'.here !! w'.there
            && (Measure(code, s, p, w') < Measure(code, s, p, w)
                || (Measure(code, s, p, w') <= Measure(code, s, p, w) && |w'.list| == |w.list|))
  {
    hide Work, Leads, Holds, Measure, TangledAt;
    var pc := w.list[w.k];
    IdleStep(code, s, p, w);
    if pc >= |code| {
    } else if Postponed(code[pc]) && Holds(code[pc].assertion, s, p) {
      WorkFrom(code, s, p, w.here, w.list, pc + 1);
      assert w.there - w.here == w.there;
      if !Circles(code, pc) {
        EntryStep(code, s, p, w, Work(code, s, p, w.here, w.list, [pc + 1]));
      } else if pc + 1 < |code| && pc + 1 !in w.here {
        CircleStep(code, s, p, w, Work(code, s, p, w.here, w.list, [pc + 1]));
      }
    } else if p < |s| && code[pc].Consuming() && code[pc].Accepts(s[p]) {
      WorkFrom(code, s, p + 1, w.there, w.next, pc + 1);
      assert w.here - w.there == w.here;
      if pc + 1 < |code| && pc + 1 !in w.there {
        ByteStep(code, s, p, w, Work(code, s, p + 1, w.there, w.next, [pc + 1]));
      }
    }
  }

  /* Where a match ends. */

  ghost predicate Halts(code: Code, s: seq<Byte>, p: nat, w: Walk)
    requires p <= |s|
  {
    exists fuel: nat :: Go(code, s, p, w, fuel).Ended?
  }

  lemma HaltsThere(code: Code, s: seq<Byte>, p: nat, w: Walk)
    requires p <= |s|
             && (w.list == [] || (w.k >= |w.list| && p == |s|) || (w.k < |w.list| && RunOne(code, s, p, w).None?))
    ensures Halts(code, s, p, w)
  {
    hide RunOne;
    GoOn(code, s, p, w, 1);
    assert Go(code, s, p, w, 1).Ended?;
  }

  lemma HaltsStep(code: Code, s: seq<Byte>, p: nat, w: Walk)
    requires p <= |s| && w.k < |w.list| && RunOne(code, s, p, w).Some? && Halts(code, s, p, RunOne(code, s, p, w).value)
    ensures Halts(code, s, p, w)
  {
    hide RunOne, Go;
    var fuel: nat :| Go(code, s, p, RunOne(code, s, p, w).value, fuel).Ended?;
    var more := fuel + 1;
    GoOn(code, s, p, w, more);
    assert Go(code, s, p, w, more).Ended?;
  }

  lemma HaltsOnto(code: Code, s: seq<Byte>, p: nat, w: Walk)
    requires p < |s| && w.list != [] && w.k >= |w.list| && Halts(code, s, p + 1, Onto(w))
    ensures Halts(code, s, p, w)
  {
    hide Go;
    var fuel: nat :| Go(code, s, p + 1, Onto(w), fuel).Ended?;
    GoOn(code, s, p, w, fuel);
    assert Go(code, s, p, w, fuel).Ended?;
  }

  /** Threads are run in order, so every entry has its turn. */
  lemma {:induction false} Turn(code: Code, s: seq<Byte>, p: nat, w: Walk, seen: set<nat>, ahead: set<nat>, i: nat)
    returns (w': Walk, seen': set<nat>, ahead': set<nat>)
    requires WellTargeted(code) && Steady(code, s, p, w, seen, ahead) && i < |w.list|
    ensures Halts(code, s, p, w) ||
            (Steady(code, s, p, w', seen', ahead') && w.list <= w'.list && i < w'.k && seen <= seen'
             && (Halts(code, s, p, w') ==> Halts(code, s, p, w)))
    decreases i + 1 - w.k
  {
    hide WellTargeted, Steady, RunOne, Accepting, Halts;
    SteadyParts(code, s, p, w, seen, ahead);
    w', seen', ahead' := w, seen, ahead;
    if w.k <= i {
      StepSteady(code, s, p, w, seen, ahead);
      match RunOne(code, s, p, w) {
        case None => HaltsThere(code, s, p, w);
        case Some(x) =>
          if Halts(code, s, p, x) { HaltsStep(code, s, p, w); }
          w', seen', ahead' := Turn(code, s, p, x, seen + x.here, ahead + x.there, i);
      }
    }
  }

  /** Whatever a run can be at is visited, unless the search ends before. */
  lemma {:induction false} Comes(code: Code, s: seq<Byte>, p: nat, w: Walk, seen: set<nat>, ahead: set<nat>, v: nat,
                                 n: nat)
    returns (w': Walk, seen': set<nat>, ahead': set<nat>)
    requires WellTargeted(code) && Steady(code, s, p, w, seen, ahead)
    requires Run(code, s, 0, |code|, Conf(0, 0, []), Conf(v, p, []), n)
    ensures Halts(code, s, p, w) ||
            (Steady(code, s, p, w', seen', ahead') && v in seen' && (Halts(code, s, p, w') ==> Halts(code, s, p, w)))
    decreases n
  {
    hide *;
    SteadyParts(code, s, p, w, seen, ahead);
    w', seen', ahead' := w, seen, ahead;
    if n == 0 {
      Nowhere(code, s, v, p, seen);
    } else {
      var u, o := LastStep(code, s, v, p, n);
      IsAt(code, s, u, o, n - 1);
      if o == p {
        w', seen', ahead' := Comes(code, s, p, w, seen, ahead, u, n - 1);
        if !Halts(code, s, p, w) {
          SteadyParts(code, s, p, w', seen', ahead');
          if Postponed(code[u]) {
            var i := Held(code, s, p, w'.list, seen', u);
            var before, before' := w', seen';
            w', seen', ahead' := Turn(code, s, p, w', seen', ahead', i);
            SteadyParts(code, s, p, w', seen', ahead');
            assert w'.list[i] == u;
            HeldAt(code, s, p, w'.list, w'.k, seen', ahead', i, v);
          } else {
            FollowedOn(code, s, p, seen', u, v);
          }
        }
      } else {
        ArrivedAt(code, s, p, seen, u);
      }
    }
  }

  lemma Held(code: Code, s: seq<Byte>, p: nat, list: seq<nat>, seen: set<nat>, u: nat) returns (i: nat)
    requires Holding(code, list, seen) && u in seen && u < |code| && (Postponed(code[u]) || code[u].Match?)
    ensures i < |list| && list[i] == u
  {
    i :| 0 <= i < |list| && list[i] == u;
  }

  lemma HeldAt(code: Code, s: seq<Byte>, p: nat, list: seq<nat>, k: nat, seen: set<nat>, ahead: set<nat>, i: nat,
               v: nat)
    requires AllRan(code, s, p, list, k, seen, ahead) && i < k <= |list| && list[i] < |code|
    requires Postponed(code[list[i]]) && Eps(code, s, p, list[i], v)
    ensures v in seen
  {
    EpsTargets(code, s, p, list[i]);
    hide Eps, Holds;
    assert Ran(code, s, p, list[i], seen, ahead);
  }

  /** Where a match ends, the search ends. */
  lemma AcceptingHalts(code: Code, s: seq<Byte>, p: nat, w: Walk, seen: set<nat>, ahead: set<nat>)
    requires WellTargeted(code) && Steady(code, s, p, w, seen, ahead) && Accepting(code, s, p)
    ensures Halts(code, s, p, w)
  {
    AcceptingIsAt(code, s, p);
    hide Accepting, Steady, WellTargeted, Halts, Run;
    SteadyParts(code, s, p, w, seen, ahead);
    var v: nat :| v < |code| && code[v].Match? && At(code, s, p, v);
    var n: nat :| Run(code, s, 0, |code|, Conf(0, 0, []), Conf(v, p, []), n);
    var w', seen', ahead' := Comes(code, s, p, w, seen, ahead, v, n);
    if !Halts(code, s, p, w) {
      SteadyParts(code, s, p, w', seen', ahead');
      var i := Held(code, s, p, w'.list, seen', v);
      var w2, seen2, ahead2 := Turn(code, s, p, w', seen', ahead', i);
      if !Halts(code, s, p, w') {
        SteadyParts(code, s, p, w2, seen2, ahead2);
        NoMatchRan(code, s, p, w2.list, w2.k, seen2, ahead2, i);
      }
    }
  }

  lemma NoMatchRan(code: Code, s: seq<Byte>, p: nat, list: seq<nat>, k: nat, seen: set<nat>, ahead: set<nat>, i: nat)
    requires AllRan(code, s, p, list, k, seen, ahead) && i < k <= |list| && list[i] < |code|
    ensures !code[list[i]].Match?
  {
    hide Holds, Postponed;
    assert Ran(code, s, p, list[i], seen, ahead);
  }

  /* The search as a whole. */

  /** Nothing is tangled at the positions that are left, up to the first where a match
      ends. */
  ghost predicate Clear(code: Code, s: seq<Byte>, p: nat) {
    forall q: nat {:trigger TangledAt(code, s, q)} :: p <= q < |s| && !AcceptsBefore(code, s, q + 1) ==>
        !TangledAt(code, s, q)
  }

  lemma {:induction false} ClearHalts(code: Code, s: seq<Byte>, p: nat, w: Walk, seen: set<nat>, ahead: set<nat>)
    requires WellTargeted(code) && Steady(code, s, p, w, seen, ahead) && w.here !! w.there
    requires Clear(code, s, p) && !AcceptsBefore(code, s, p)
    ensures Halts(code, s, p, w)
    decreases |s| - p, Measure(code, s, p, w), |w.list| - w.k
  {
    hide WellTargeted, Steady, RunOne, Accepting, AcceptsBefore, Halts, Measure, TangledAt;
    SteadyParts(code, s, p, w, seen, ahead);
    OneMore(code, s, p);
    if w.list == [] {
      HaltsThere(code, s, p, w);
    } else if Accepting(code, s, p) {
      AcceptingHalts(code, s, p, w, seen, ahead);
    } else if w.k < |w.list| {
      StepSteady(code, s, p, w, seen, ahead);
      var w' := RunOne(code, s, p, w).value;
      ClearHere(code, s, p);
      StepLess(code, s, p, w);
      ClearHalts(code, s, p, w', seen + w'.here, ahead + w'.there);
      HaltsStep(code, s, p, w);
    } else if p == |s| {
      HaltsThere(code, s, p, w);
    } else {
      OntoSteady(code, s, p, w, seen, ahead);
      ClearHalts(code, s, p + 1, Onto(w), ahead, {});
      HaltsOnto(code, s, p, w);
    }
  }

  lemma ClearHere(code: Code, s: seq<Byte>, p: nat)
    requires Clear(code, s, p) && !AcceptsBefore(code, s, p + 1) && p <= |s|
    ensures !TangledAt(code, s, p)
  {
    hide AcceptsBefore, Tangled;
  }

  /** The search ends if nothing is tangled before the first match ends. */
  lemma ClearEnds(code: Code, s: seq<Byte>)
    requires WellTargeted(code) && Clear(code, s, 0)
    ensures Ends(code, s)
  {
    hide WellTargeted, Steady, Clear, AcceptsBefore, Go, Start;
    StartSteady(code, s);
    NotYet(code, s);
    StartApart(code, s);
    ClearHalts(code, s, 0, Start(code, s), Start(code, s).here, {});
    var fuel: nat :| Go(code, s, 0, Start(code, s), fuel).Ended?;
    assert SearchAhead(code, s, fuel).Ended?;
  }

  lemma StartApart(code: Code, s: seq<Byte>)
    ensures Start(code, s).here !! Start(code, s).there
  {
    hide Work;
  }

  /* Programs with nothing to be tangled. */

  /** With ranks that fall on every step that consumes nothing, nothing follows itself. */
  lemma {:induction false} PathFalls(code: Code, rank: seq<nat>, u: nat, v: nat, n: nat)
    requires Ranked(code, rank) && Path(code, true, u, v, n) && v < |code|
    ensures u < |code| && |rank| == |code| && rank[v] <= rank[u]
    decreases n
  {
    hide Ranked, Steps;
    if n > 0 {
      var x: nat :| x in Steps(code, true, u) && Path(code, true, x, v, n - 1);
      PathFalls(code, rank, x, v, n - 1);
      StepFalls(code, rank, u, x);
    } else {
      RankedLength(code, rank);
    }
  }

  lemma RankedLength(code: Code, rank: seq<nat>)
    requires Ranked(code, rank)
    ensures |rank| == |code|
  {
  }

  lemma StepFalls(code: Code, rank: seq<nat>, u: nat, v: nat)
    requires Ranked(code, rank) && v in Steps(code, true, u) && v < |code|
    ensures u < |code| && |rank| == |code| && rank[v] < rank[u]
  {
    hide Ranked;
    RankDrops(code, rank, u, v);
  }

  lemma RankedCircles(code: Code, rank: seq<nat>, a: nat)
    requires Ranked(code, rank)
    ensures !Circles(code, a)
  {
    hide Ranked, Path;
    if Circles(code, a) {
      var n: nat :| Path(code, true, a + 1, a, n);
      PathFalls(code, rank, a + 1, a, n);
      StepFalls(code, rank, a, a + 1);
    }
  }

  /** A program without a cycle that consumes nothing always ends. */
  lemma RankedEnds(code: Code, rank: seq<nat>, s: seq<Byte>)
    requires WellTargeted(code) && Ranked(code, rank)
    ensures Ends(code, s)
  {
    hide WellTargeted, Ranked, AcceptsBefore, Ends, Circles;
    forall a: nat ensures !Circles(code, a) { RankedCircles(code, rank, a); }
    ClearEnds(code, s);
  }

  /** So every set of regexes ends in which no loop body can match empty, and always
      with the right answer. */
  lemma ProperEnds(code: Code, bs: seq<Branch>, s: seq<Byte>)
    requires ProgramOf(code, bs) && ProperLoops(Wrap(bs))
    ensures Ends(code, s)
  {
    hide ProgramOf, ProperLoops, Ranked, Ends, WellTargeted;
    ProgramTargets(code, bs);
    var rank := ProgramRanked(code, bs);
    RankedEnds(code, rank, s);
  }
}
