/** The three passes of the DynASM encoding engine for x86 (dynasm/dasm_x86.h:166-438)
    on one section of plain bytes, relative references, labels and alignments.

    Pass 1 stores arguments in a buffer, threads the references to a label that is
    still to come through it, and estimates offsets with every branch long and every
    alignment as wide as it can be.  Pass 2 makes branches short where that is sure
    to reach, in one sweep.  Pass 3 writes the code. */
module DynAsm {

  /** An action with its argument; the label says which entry of the label array. */
  datatype Act =
    | Byte(code: nat)         // one byte of code
    | RelBack(key: nat)     // DASM_REL_PC, DASM_REL_LG backwards or global
    | RelFwd(key: nat)      // DASM_REL_LG forwards
    | Label(key: nat)       // DASM_LABEL_LG, DASM_LABEL_PC
    | Align(mask: nat)        // DASM_ALIGN, mask is 2**n - 1
  {
    predicate Rel() { RelBack? || RelFwd? }
  }

  /** Positions of the buffer an action takes. */
  function Width(act: Act): nat {
    if act.Rel() then 2 else if act.Byte? then 0 else 1
  }

  /** Where the arguments of action `k` are; position 0 ends a chain. */
  function Slot(acts: seq<Act>, k: nat): nat
    requires k <= |acts|
  {
    if k == 0 then 1 else Slot(acts, k - 1) + Width(acts[k - 1])
  }

  /** The largest size an action can have. */
  function MaxSize(act: Act): nat {
    match act
    case Byte(_) => 1
    case Label(_) => 0
    case Align(mask) => mask
    case _ => 4
  }

  /** The pass 1 estimate of the offset of action `k`. */
  function Est(acts: seq<Act>, k: nat): nat
    requires k <= |acts|
  {
    if k == 0 then 0 else Est(acts, k - 1) + MaxSize(acts[k - 1])
  }

  datatype Option<T> = None | Some(value: T)

  /** The label a backward reference to `l` would find after `n` actions: the last
      one, unless a forward reference has given it up. */
  function Known(acts: seq<Act>, n: nat, l: nat): (r: Option<nat>)
    requires n <= |acts|
    ensures r.Some? ==> r.value < n && acts[r.value] == Label(l)
  {
    if n == 0 then None
    else if acts[n - 1] == Label(l) then Some(n - 1)
    else if acts[n - 1] == RelFwd(l) then None
    else Known(acts, n - 1, l)
  }

  /** The references to `l` among the first `n` actions that wait for their label,
      latest first. */
  function Waiting(acts: seq<Act>, n: nat, l: nat): seq<nat>
    requires n <= |acts|
  {
    if n == 0 || acts[n - 1] == Label(l) then []
    else if acts[n - 1].Rel() && acts[n - 1].key == l then
      if Known(acts, n - 1, l).None? then [n - 1] + Waiting(acts, n - 1, l)
      else if acts[n - 1].RelFwd? then [n - 1]
      else []
    else Waiting(acts, n - 1, l)
  }

  /** The first label `l` from `k` on, before `n`. */
  function NextLabel(acts: seq<Act>, k: nat, n: nat, l: nat): (r: Option<nat>)
    requires k <= n <= |acts|
    ensures r.Some? ==> k <= r.value < n && acts[r.value] == Label(l)
    decreases n - k
  {
    if k == n then None else if acts[k] == Label(l) then Some(k) else NextLabel(acts, k + 1, n, l)
  }

  /** The label that reference `k` means, as far as the first `n` actions tell. */
  function Meant(acts: seq<Act>, k: nat, n: nat): (r: Option<nat>)
    requires k < n <= |acts| && acts[k].Rel()
    ensures r.Some? ==> r.value < n && r.value != k && acts[r.value] == Label(acts[k].key)
  {
    if acts[k].RelBack? && Known(acts, k, acts[k].key).Some? then Known(acts, k, acts[k].key)
    else NextLabel(acts, k + 1, n, acts[k].key)
  }

  lemma {:induction false} KnownIdle(acts: seq<Act>, n: nat, l: nat)
    requires n <= |acts| && Known(acts, n, l).Some?
    ensures Waiting(acts, n, l) == []
    decreases n
  {
    if n > 0 && acts[n - 1] != Label(l) { KnownIdle(acts, n - 1, l); }
  }

  lemma {:induction false} NextLabelMore(acts: seq<Act>, k: nat, n: nat, l: nat)
    requires k <= n < |acts|
    ensures NextLabel(acts, k, n + 1, l) ==
            if NextLabel(acts, k, n, l).Some? then NextLabel(acts, k, n, l)
            else if acts[n] == Label(l) then Some(n) else None
    decreases n - k
  {
    if k < n && acts[k] != Label(l) { NextLabelMore(acts, k + 1, n, l); }
  }

  /** A reference waits exactly as long as its label is not known. */
  lemma {:induction false} WaitingMeant(acts: seq<Act>, n: nat, k: nat)
    requires k < n <= |acts| && acts[k].Rel()
    ensures k in Waiting(acts, n, acts[k].key) <==> Meant(acts, k, n).None?
    decreases n
  {
    var l := acts[k].key;
    if k == n - 1 {
      WaitingBounds(acts, n - 1, l);
    } else {
      WaitingMeant(acts, n - 1, k);
      NextLabelMore(acts, k + 1, n - 1, l);
      if acts[n - 1].Rel() && acts[n - 1].key == l && Known(acts, n - 1, l).Some? { KnownIdle(acts, n - 1, l); }
    }
  }

  lemma {:induction false} WaitingBounds(acts: seq<Act>, n: nat, l: nat)
    requires n <= |acts|
    ensures forall i :: 0 <= i < |Waiting(acts, n, l)| ==>
              Waiting(acts, n, l)[i] < n && acts[Waiting(acts, n, l)[i]].Rel() && acts[Waiting(acts, n, l)[i]].key == l
    ensures forall i, j :: 0 <= i < j < |Waiting(acts, n, l)| ==> Waiting(acts, n, l)[i] > Waiting(acts, n, l)[j]
    decreases n
  {
    if n > 0 { WaitingBounds(acts, n - 1, l); }
  }

  lemma {:induction false} SlotApart(acts: seq<Act>, j: nat, k: nat)
    requires j < k <= |acts|
    ensures Slot(acts, j) + Width(acts[j]) <= Slot(acts, k)
    decreases k
  {
    if j < k - 1 { SlotApart(acts, j, k - 1); }
  }

  lemma SlotsPositive(acts: seq<Act>, k: nat)
    requires k <= |acts|
    ensures Slot(acts, k) > 0
  {
    if k > 0 { SlotApart(acts, 0, k); }
  }

  /* Pass 1. */

  /** The first element of a chain in the label array, 0 for none. */
  function Head(acts: seq<Act>, w: seq<nat>): nat
    requires forall i :: 0 <= i < |w| ==> w[i] < |acts|
  {
    if w == [] then 0 else Slot(acts, w[0])
  }

  /** What the label array holds after `n` actions: minus the position of a known
      label, or the latest reference that waits. */
  ghost predicate Anchored(acts: seq<Act>, n: nat, labels: seq<int>)
    requires n <= |acts|
  {
    forall l: nat :: l < |labels| ==> labels[l] == Anchor(acts, n, l)
  }

  function Anchor(acts: seq<Act>, n: nat, l: nat): int
    requires n <= |acts|
  {
    WaitingBounds(acts, n, l);
    if Known(acts, n, l).Some? then 0 - Slot(acts, Known(acts, n, l).value) else Head(acts, Waiting(acts, n, l))
  }

  /** Each waiting reference holds the position of the one before it. */
  ghost predicate Chained(acts: seq<Act>, n: nat, b: seq<int>)
    requires n <= |acts|
  {
    forall l: nat :: ChainFor(acts, n, b, l)
  }

  ghost predicate ChainFor(acts: seq<Act>, n: nat, b: seq<int>, l: nat)
    requires n <= |acts|
  {
    ChainOf(acts, b, Waiting(acts, n, l))
  }

  ghost predicate ChainOf(acts: seq<Act>, b: seq<int>, w: seq<nat>) {
    forall i: nat :: i < |w| ==> LinkAt(acts, b, w, i)
  }

  ghost predicate LinkAt(acts: seq<Act>, b: seq<int>, w: seq<nat>, i: nat)
    requires i < |w|
  {
    && w[i] < |acts| && Slot(acts, w[i]) < |b|
    && (i + 1 < |w| ==> w[i + 1] < |acts|)
    && b[Slot(acts, w[i])] == if i + 1 < |w| then Slot(acts, w[i + 1]) else 0
  }

  /** Each reference whose label is known holds its position. */
  ghost predicate Resolved(acts: seq<Act>, n: nat, b: seq<int>)
    requires n <= |acts|
  {
    forall k: nat :: k < n && acts[k].Rel() && Meant(acts, k, n).Some? ==>
      Slot(acts, k) < |b| && b[Slot(acts, k)] == Slot(acts, Meant(acts, k, n).value)
  }

  /** The estimates stored beside references, and for labels and alignments. */
  ghost predicate Estimated(acts: seq<Act>, n: nat, b: seq<int>)
    requires n <= |acts|
  {
    forall k: nat :: k < n ==> EstimateAt(acts, k, b)
  }

  ghost predicate EstimateAt(acts: seq<Act>, k: nat, b: seq<int>)
    requires k < |acts|
  {
    && (acts[k].Label? ==> Slot(acts, k) < |b| && b[Slot(acts, k)] == Est(acts, k))
    && (acts[k].Align? ==> Slot(acts, k) < |b| && b[Slot(acts, k)] == Est(acts, k + 1))
    && (acts[k].Rel() ==> Slot(acts, k) + 1 < |b| && b[Slot(acts, k) + 1] == Est(acts, k + 1))
  }

  ghost predicate Put(acts: seq<Act>, n: nat, labels: seq<int>, b: seq<int>) {
    && n <= |acts| && |b| == Slot(acts, n)
    && Anchored(acts, n, labels) && Chained(acts, n, b) && Resolved(acts, n, b) && Estimated(acts, n, b)
  }

  /** `p` holds the link of a reference of `w`. */
  ghost predicate LinkOf(acts: seq<Act>, w: seq<nat>, p: int) {
    exists i :: 0 <= i < |w| && w[i] < |acts| && p == Slot(acts, w[i])
  }

  /** The links of `w` are replaced by `pos`, everything else is as it was, and more
      may follow. */
  ghost predicate Rewritten(acts: seq<Act>, w: seq<nat>, b: seq<int>, b': seq<int>, pos: int) {
    && |b| <= |b'|
    && forall p :: 0 <= p < |b| ==> b'[p] == if LinkOf(acts, w, p) then pos else b[p]
  }

  lemma SlotsDiffer(acts: seq<Act>, j: nat, k: nat)
    requires j < |acts| && k < |acts| && acts[j].Rel() && j != k && Width(acts[k]) > 0
    ensures Slot(acts, j) != Slot(acts, k) && (acts[k].Rel() ==> Slot(acts, j) != Slot(acts, k) + 1)
  {
    if j < k { SlotApart(acts, j, k); } else { SlotApart(acts, k, j); }
  }

  lemma SlotBelow(acts: seq<Act>, k: nat, n: nat)
    requires k < n <= |acts|
    ensures Slot(acts, k) + Width(acts[k]) <= Slot(acts, n)
  {
    SlotApart(acts, k, n);
  }

  /** Nothing but links of references is rewritten. */
  lemma NotLinked(acts: seq<Act>, w: seq<nat>, k: nat)
    requires k < |acts| && Width(acts[k]) > 0
    requires forall i :: 0 <= i < |w| ==> w[i] < |acts| && acts[w[i]].Rel()
    ensures k !in w ==> !LinkOf(acts, w, Slot(acts, k))
    ensures acts[k].Rel() ==> !LinkOf(acts, w, Slot(acts, k) + 1)
  {
    forall i | 0 <= i < |w|
      ensures (w[i] != k ==> Slot(acts, w[i]) != Slot(acts, k))
      && (acts[k].Rel() ==> Slot(acts, w[i]) != Slot(acts, k) + 1) {
      if w[i] != k { SlotsDiffer(acts, w[i], k); }
    }
  }

  lemma EstimatedMore(acts: seq<Act>, n: nat, w: seq<nat>, b: seq<int>, b': seq<int>, pos: int)
    requires n < |acts| && |b| == Slot(acts, n) && Estimated(acts, n, b) && Rewritten(acts, w, b, b', pos)
    requires forall i :: 0 <= i < |w| ==> w[i] < |acts| && acts[w[i]].Rel()
    requires |b'| == Slot(acts, n + 1)
    requires acts[n].Label? ==> b'[|b|] == Est(acts, n)
    requires acts[n].Align? ==> b'[|b|] == Est(acts, n + 1)
    requires acts[n].Rel() ==> b'[|b| + 1] == Est(acts, n + 1)
    ensures Estimated(acts, n + 1, b')
  {
    hide Est, LinkOf;
    var n' := n + 1;
    forall k: nat | k < n' ensures EstimateAt(acts, k, b') {
      if k < n {
        assert EstimateAt(acts, k, b);
        SlotBelow(acts, k, n);
        if Width(acts[k]) > 0 { NotLinked(acts, w, k); }
        if acts[k].Label? || acts[k].Align? { NoRel(acts, w, k); }
      } else {
        EstNext(acts, n);
      }
    }
  }

  lemma NoRel(acts: seq<Act>, w: seq<nat>, k: nat)
    requires k < |acts| && (acts[k].Label? || acts[k].Align?)
    requires forall i :: 0 <= i < |w| ==> w[i] < |acts| && acts[w[i]].Rel()
    ensures k !in w
  {
  }

  lemma ResolvedMore(acts: seq<Act>, n: nat, w: seq<nat>, b: seq<int>, b': seq<int>)
    requires n < |acts| && |b| == Slot(acts, n) && Resolved(acts, n, b)
    requires w == (if acts[n].Label? then Waiting(acts, n, acts[n].key) else [])
             && Rewritten(acts, w, b, b', Slot(acts, n))
    requires |b'| == Slot(acts, n + 1)
    requires acts[n].RelBack? && Known(acts, n, acts[n].key).Some? ==>
             b'[|b|] == Slot(acts, Known(acts, n, acts[n].key).value)
    ensures Resolved(acts, n + 1, b')
  {
    forall k: nat | k < n + 1 && acts[k].Rel() && Meant(acts, k, n + 1).Some?
      ensures Slot(acts, k) < |b'| && b'[Slot(acts, k)] == Slot(acts, Meant(acts, k, n + 1).value)
    {
      if k < n {
        ResolvedOne(acts, n, w, b, b', k);
      } else {
        EstNext(acts, n);
      }
    }
  }

  lemma ResolvedOne(acts: seq<Act>, n: nat, w: seq<nat>, b: seq<int>, b': seq<int>, k: nat)
    requires n < |acts| && |b| == Slot(acts, n) && Resolved(acts, n, b) && |b| <= |b'|
    requires w == (if acts[n].Label? then Waiting(acts, n, acts[n].key) else [])
             && Rewritten(acts, w, b, b', Slot(acts, n))
    requires k < n && acts[k].Rel() && Meant(acts, k, n + 1).Some?
    ensures Slot(acts, k) < |b'| && b'[Slot(acts, k)] == Slot(acts, Meant(acts, k, n + 1).value)
  {
    if acts[n].Label? { WaitingBounds(acts, n, acts[n].key); }
    NextLabelMore(acts, k + 1, n, acts[k].key);
    WaitingMeant(acts, n, k);
    hide Slot, LinkOf, Waiting, NextLabel, Known;
    SlotBelow(acts, k, n);
    NotLinked(acts, w, k);
    if k in w { Linked(acts, w, k); }
  }

  lemma Linked(acts: seq<Act>, w: seq<nat>, k: nat)
    requires k in w && k < |acts|
    ensures LinkOf(acts, w, Slot(acts, k))
  {
    var i :| 0 <= i < |w| && w[i] == k;
  }

  lemma ChainedMore(acts: seq<Act>, n: nat, w: seq<nat>, b: seq<int>, b': seq<int>)
    requires n < |acts| && |b| == Slot(acts, n) && Chained(acts, n, b)
    requires w == (if acts[n].Label? then Waiting(acts, n, acts[n].key) else [])
             && Rewritten(acts, w, b, b', Slot(acts, n))
    requires |b'| == Slot(acts, n + 1)
    requires acts[n].Rel() && Known(acts, n, acts[n].key).None? ==> b'[|b|] == Anchor(acts, n, acts[n].key)
    requires acts[n].RelFwd? && Known(acts, n, acts[n].key).Some? ==> b'[|b|] == 0
    ensures Chained(acts, n + 1, b')
  {
    if acts[n].Label? { WaitingBounds(acts, n, acts[n].key); }
    hide Slot, LinkOf;
    var n' := n + 1;
    forall l: nat ensures ChainFor(acts, n', b', l) {
      var w0 := Waiting(acts, n, l);
      WaitingBounds(acts, n, l);
      assert ChainFor(acts, n, b, l);
      if !(acts[n].Label? && acts[n].key == l) {
        forall i: nat | i < |w0| ensures LinkAt(acts, b', w0, i) {
          assert LinkAt(acts, b, w0, i);
          NotLinked(acts, w, w0[i]);
        }
        assert ChainOf(acts, b', w0);
        EstNext(acts, n);
        if acts[n].Rel() && acts[n].key == l && Known(acts, n, l).None? { ChainFront(acts, b', w0, n); }
      }
    }
  }

  lemma ChainFront(acts: seq<Act>, b: seq<int>, w: seq<nat>, n: nat)
    requires n < |acts| && ChainOf(acts, b, w) && Slot(acts, n) < |b| && (forall i :: 0 <= i < |w| ==> w[i] < |acts|)
    requires b[Slot(acts, n)] == Head(acts, w)
    ensures ChainOf(acts, b, [n] + w)
  {
    hide Slot;
    var w' := [n] + w;
    forall i: nat | i < |w'| ensures LinkAt(acts, b, w', i) {
      if i > 0 {
        assert LinkAt(acts, b, w, i - 1);
      } else if |w| > 0 {
        assert w'[1] == w[0];
      }
    }
  }

  /** Pass 1 over all actions. */
  method PassOne(acts: seq<Act>, nlabels: nat) returns (b: seq<int>, labels: seq<int>, ofs: nat)
    requires forall k :: 0 <= k < |acts| && (acts[k].Rel() || acts[k].Label?) ==> acts[k].key < nlabels
    ensures Put(acts, |acts|, labels, b) && |labels| == nlabels && ofs == Est(acts, |acts|)
  {
    hide Anchored, Chained, Resolved, Estimated, Slot, Est;
    b, labels, ofs := [0], seq(nlabels, _ => 0), 0;
    NothingPut(acts, labels);
    var n := 0;
    while n < |acts|
      invariant 0 <= n <= |acts| && |labels| == nlabels && ofs == Est(acts, n) && Put(acts, n, labels, b)
    {
      ghost var b0, labels0 := b, labels;
      EstNext(acts, n);
      match acts[n] {
        case Byte(_) =>
          ofs := ofs + 1;
        case Align(mask) =>
          ofs := ofs + mask;
          b := b + [ofs];
        case Label(l) =>
          var pos := |b|;
          b := Collapse(acts, n, labels, b);
          labels := labels[l := -pos];
          b := b + [ofs];
        case RelFwd(l) =>
          var link := if labels[l] < 0 then 0 else labels[l];
          labels := labels[l := |b|];
          ofs := ofs + 4;
          b := b + [link, ofs];
        case RelBack(l) =>
          ofs := ofs + 4;
          if labels[l] < 0 {
            b := b + [-labels[l], ofs];
          } else {
            b, labels := b + [labels[l], ofs], labels[l := |b|];
          }
      }
      PutMore(acts, n, labels0, b0, labels, b);
      n := n + 1;
    }
  }

  lemma PutParts(acts: seq<Act>, n: nat, labels: seq<int>, b: seq<int>)
    requires Put(acts, n, labels, b)
    ensures |b| == Slot(acts, n)
  {
  }

  lemma LinkParts(acts: seq<Act>, b: seq<int>, w: seq<nat>, i: nat)
    requires ChainOf(acts, b, w) && i < |w|
    ensures w[i] < |acts| && 0 <= Slot(acts, w[i]) < |b| && (i + 1 < |w| ==> w[i + 1] < |acts|)
    ensures b[Slot(acts, w[i])] == if i + 1 < |w| then Slot(acts, w[i + 1]) else 0
  {
    hide Slot;
    assert LinkAt(acts, b, w, i);
  }

  /** What pass 1 finds at a label: the head of its chain, if anything waits. */
  lemma ChainStarts(acts: seq<Act>, n: nat, labels: seq<int>, b: seq<int>)
    requires Put(acts, n, labels, b) && n < |acts| && acts[n].Label? && acts[n].key < |labels|
    ensures var w := Waiting(acts, n, acts[n].key);
            if w == [] then labels[acts[n].key] <= 0 else w[0] < |acts| && labels[acts[n].key] == Slot(acts, w[0])
    ensures ChainOf(acts, b, Waiting(acts, n, acts[n].key))
  {
    hide Waiting, Known, Slot, LinkOf, LinkAt;
    var l := acts[n].key;
    WaitingBounds(acts, n, l);
    if Known(acts, n, l).Some? {
      KnownIdle(acts, n, l);
      SlotsPositive(acts, Known(acts, n, l).value);
    }
    assert labels[l] == Anchor(acts, n, l) && ChainFor(acts, n, b, l);
  }

  /** Walks the chain of a label that is placed now and replaces every link. */
  method Collapse(acts: seq<Act>, n: nat, labels: seq<int>, b: seq<int>) returns (b': seq<int>)
    requires Put(acts, n, labels, b) && n < |acts| && acts[n].Label? && acts[n].key < |labels|
    ensures |b'| == |b| && Rewritten(acts, Waiting(acts, n, acts[n].key), b, b', Slot(acts, n))
  {
    hide Slot, Put, Waiting, Known, LinkOf, LinkAt;
    ghost var l := acts[n].key;
    ghost var w := Waiting(acts, n, l);
    WaitingBounds(acts, n, l);
    ChainStarts(acts, n, labels, b);
    b' := b;
    var pos := |b|;
    PutParts(acts, n, labels, b);
    var m := labels[acts[n].key];
    ghost var i: nat := 0;
    NoLinks(acts, w[..0]);
    while m > 0
      invariant i <= |w| && |b'| == |b| && (i < |w| ==> m == Slot(acts, w[i])) && (i == |w| ==> m <= 0)
      invariant Rewritten(acts, w[..i], b, b', pos)
      decreases |w| - i
    {
      LinkParts(acts, b, w, i);
      NotLinked(acts, w[..i], w[i]);
      var next := b'[m];
      b' := b'[m := pos];
      MoreLinks(acts, w, i);
      if i + 1 < |w| { SlotsPositive(acts, w[i + 1]); }
      m := next;
      i := i + 1;
    }
    assert i == |w| by { if i < |w| { SlotsPositive(acts, w[i]); } }
    assert w[..i] == w;
  }

  lemma NoLinks(acts: seq<Act>, w: seq<nat>)
    requires w == []
    ensures forall p :: !LinkOf(acts, w, p)
  {
  }

  lemma MoreLinks(acts: seq<Act>, w: seq<nat>, i: nat)
    requires i < |w| && w[i] < |acts|
    ensures forall p :: LinkOf(acts, w[..i + 1], p) <==> LinkOf(acts, w[..i], p) || p == Slot(acts, w[i])
  {
    hide Slot;
    var w0, w1 := w[..i], w[..i + 1];
    forall p ensures LinkOf(acts, w1, p) <==> LinkOf(acts, w0, p) || p == Slot(acts, w[i]) {
      if LinkOf(acts, w1, p) {
        var j :| 0 <= j < |w1| && w1[j] < |acts| && p == Slot(acts, w1[j]);
        if j < i { assert w0[j] == w1[j]; }
      }
      if LinkOf(acts, w0, p) {
        var j :| 0 <= j < |w0| && w0[j] < |acts| && p == Slot(acts, w0[j]);
        assert w1[j] == w0[j];
      }
      if p == Slot(acts, w[i]) { assert w1[i] == w[i]; }
    }
  }

  /** The label array after one action more. */
  ghost predicate Moved(acts: seq<Act>, n: nat, labels: seq<int>, labels': seq<int>)
    requires n < |acts|
  {
    && |labels'| == |labels|
    && forall l: nat :: l < |labels| ==>
         labels'[l] ==
           if acts[n] == Label(l) then 0 - Slot(acts, n)
           else if acts[n] == RelFwd(l) || (acts[n] == RelBack(l) && labels[l] >= 0) then Slot(acts, n)
           else labels[l]
  }

  lemma AnchorSign(acts: seq<Act>, n: nat, l: nat)
    requires n <= |acts|
    ensures Known(acts, n, l).Some? <==> Anchor(acts, n, l) < 0
  {
    WaitingBounds(acts, n, l);
    if Known(acts, n, l).Some? { SlotsPositive(acts, Known(acts, n, l).value); }
  }

  lemma AnchoredMore(acts: seq<Act>, n: nat, labels: seq<int>, labels': seq<int>)
    requires n < |acts| && Anchored(acts, n, labels) && Moved(acts, n, labels, labels')
    ensures Anchored(acts, n + 1, labels')
  {
    var n' := n + 1;
    forall l: nat | l < |labels'| ensures labels'[l] == Anchor(acts, n', l) {
      AnchorSign(acts, n, l);
      AnchorStep(acts, n, l);
    }
  }

  lemma AnchorStep(acts: seq<Act>, n: nat, l: nat)
    requires n < |acts|
    ensures Anchor(acts, n + 1, l) ==
            if acts[n] == Label(l) then 0 - Slot(acts, n)
            else if acts[n] == RelFwd(l) || (acts[n] == RelBack(l) && Known(acts, n, l).None?) then Slot(acts, n)
            else Anchor(acts, n, l)
  {
    hide Slot;
  }

  /** One action put. */
  lemma PutMore(acts: seq<Act>, n: nat, labels: seq<int>, b: seq<int>, labels': seq<int>, b': seq<int>)
    requires Put(acts, n, labels, b) && n < |acts| && Moved(acts, n, labels, labels') && |b'| == Slot(acts, n + 1)
    requires var w := if acts[n].Label? then Waiting(acts, n, acts[n].key) else [];
             Rewritten(acts, w, b, b', Slot(acts, n))
    requires acts[n].Rel() ==> acts[n].key < |labels|
    requires acts[n].Label? ==> b'[|b|] == Est(acts, n)
    requires acts[n].Align? ==> b'[|b|] == Est(acts, n + 1)
    requires acts[n].Rel() ==> b'[|b| + 1] == Est(acts, n + 1)
    requires acts[n].RelFwd? ==>
             b'[|b|] == (if labels[acts[n].key] < 0 then 0 else labels[acts[n].key])
    requires acts[n].RelBack? ==>
             b'[|b|] == (if labels[acts[n].key] < 0 then -labels[acts[n].key] else labels[acts[n].key])
    ensures Put(acts, n + 1, labels', b')
  {
    var w := if acts[n].Label? then Waiting(acts, n, acts[n].key) else [];
    if acts[n].Label? { WaitingBounds(acts, n, acts[n].key); }
    if acts[n].Rel() {
      assert labels[acts[n].key] == Anchor(acts, n, acts[n].key);
      AnchorSign(acts, n, acts[n].key);
      AnchorKnown(acts, n, acts[n].key);
    }
    hide Anchored, Chained, Resolved, Estimated, Slot, Est, Waiting, Known, Rewritten, Anchor;
    EstimatedMore(acts, n, w, b, b', Slot(acts, n));
    ResolvedMore(acts, n, w, b, b');
    ChainedMore(acts, n, w, b, b');
    AnchoredMore(acts, n, labels, labels');
  }

  lemma AnchorKnown(acts: seq<Act>, n: nat, l: nat)
    requires n <= |acts|
    ensures Known(acts, n, l).Some? ==> Anchor(acts, n, l) == 0 - Slot(acts, Known(acts, n, l).value)
  {
  }

  lemma EstNext(acts: seq<Act>, n: nat)
    requires n < |acts|
    ensures Est(acts, n + 1) == Est(acts, n) + MaxSize(acts[n]) && Slot(acts, n + 1) == Slot(acts, n) + Width(acts[n])
  {
  }

  lemma NothingPut(acts: seq<Act>, labels: seq<int>)
    requires forall l :: 0 <= l < |labels| ==> labels[l] == 0
    ensures Put(acts, 0, labels, [0]) && Slot(acts, 0) == 1 && Est(acts, 0) == 0
  {
  }
}
