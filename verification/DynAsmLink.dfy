/** Pass 2 (dynasm/dasm_x86.h:264-345): branches are made short in one sweep over
    estimates. */
module DynAsmLink {
  import opened DynAsm

  /** How much a reference can shrink, by the byte before it: a jump, a conditional
      jump, or neither. */
  function ShrinkBy(acts: seq<Act>, k: nat): nat
    requires k < |acts|
  {
    if k == 0 || !acts[k - 1].Byte? then 0
    else if acts[k - 1].code == 0xe9 then 3
    else if 0x80 <= acts[k - 1].code < 0x90 then 4
    else 0
  }

  /** Those are jmp and the sixteen conditional jumps. */
  lemma ShrinkByIs(acts: seq<Act>, k: nat)
    requires 0 < k < |acts| && acts[k - 1].Byte?
    ensures acts[k - 1].code == 0xe9 ==> ShrinkBy(acts, k) == 3
    ensures 0x80 <= acts[k - 1].code <= 0x8f ==> ShrinkBy(acts, k) == 4
    ensures acts[k - 1].code != 0xe9 && !(0x80 <= acts[k - 1].code <= 0x8f) ==> ShrinkBy(acts, k) == 0
  {
  }

  /** The first offset from `off` on that is aligned. */
  function RoundUp(off: nat, mask: nat): (r: nat)
    ensures off <= r <= off + mask && r % (mask + 1) == 0
  {
    WithoutRest(off + mask, mask + 1);
    off + mask - (off + mask) % (mask + 1)
  }

  /** Quotient and rest are unique. */
  lemma Unique(x: int, m: nat, q: int, r: nat)
    requires x == q * m + r && r < m
    ensures x % m == r
  {
    var q', r' := x / m, x % m;
    assert x == q' * m + r';
    var d := q - q';
    assert d * m == r' - r;
    Scaled(d, m);
  }

  lemma Scaled(d: int, m: nat)
    ensures d >= 1 ==> d * m >= m
    ensures d <= -1 ==> d * m <= 0 - m
  {
  }

  lemma WithoutRest(x: nat, m: nat)
    requires m > 0
    ensures (x - x % m) % m == 0
  {
    assert x - x % m == (x / m) * m;
    Unique(x - x % m, m, x / m, 0);
  }

  /** The offset of action `k` when the references shrink by `shr`. */
  function Off(acts: seq<Act>, shr: seq<nat>, k: nat): nat
    requires k <= |acts| == |shr|
  {
    if k == 0 then 0
    else
      var before := Off(acts, shr, k - 1);
      match acts[k - 1]
      case Byte(_) => before + 1
      case Label(_) => before
      case Align(mask) => RoundUp(before, mask)
      case _ => if shr[k - 1] <= 4 then before + 4 - shr[k - 1] else before
  }

  lemma {:induction false} OffSame(acts: seq<Act>, shr: seq<nat>, shr': seq<nat>, k: nat)
    requires k <= |acts| == |shr| == |shr'| && forall i :: 0 <= i < k ==> shr[i] == shr'[i]
    ensures Off(acts, shr, k) == Off(acts, shr', k)
    decreases k
  {
    if k > 0 { OffSame(acts, shr, shr', k - 1); }
  }

  lemma OffNext(acts: seq<Act>, shr: seq<nat>, k: nat)
    requires k < |acts| == |shr|
    ensures var next := Off(acts, shr, k + 1);
            match acts[k]
            case Byte(_) => next == Off(acts, shr, k) + 1
            case Label(_) => next == Off(acts, shr, k)
            case Align(mask) => next == RoundUp(Off(acts, shr, k), mask)
            case _ => shr[k] <= 4 ==> next == Off(acts, shr, k) + 4 - shr[k]
    ensures Off(acts, shr, k) <= Off(acts, shr, k + 1)
  {
  }

  /** What is shrunk stays shrunk: the estimates only get worse. */
  lemma {:induction false} ShiftDown(acts: seq<Act>, shr: seq<nat>, j: nat, k: nat)
    requires j <= k <= |acts| == |shr|
    ensures Off(acts, shr, k) - Est(acts, k) <= Off(acts, shr, j) - Est(acts, j)
    ensures Off(acts, shr, j) <= Off(acts, shr, k)
    decreases k
  {
    if j < k {
      ShiftDown(acts, shr, j, k - 1);
      OffNext(acts, shr, k - 1);
    }
  }

  /** Every reference has its label. */
  ghost predicate AllMeant(acts: seq<Act>) {
    forall k: nat :: k < |acts| && acts[k].Rel() ==> Meant(acts, k, |acts|).Some?
  }

  /** The distance reference `k` has to bridge, from the end of the instruction. */
  function Disp(acts: seq<Act>, shr: seq<nat>, k: nat): int
    requires k < |acts| == |shr| && acts[k].Rel() && Meant(acts, k, |acts|).Some?
  {
    Off(acts, shr, Meant(acts, k, |acts|).value) - Off(acts, shr, k + 1)
  }

  /** Only branches shrink, and what is short reaches its label with one byte. */
  ghost predicate Safe(acts: seq<Act>, shr: seq<nat>) {
    && |shr| == |acts| && AllMeant(acts)
    && forall k: nat :: k < |acts| ==>
         && (shr[k] == 0 || (acts[k].Rel() && shr[k] == ShrinkBy(acts, k)))
         && (acts[k].Rel() && shr[k] > 0 ==> -128 <= Disp(acts, shr, k) <= 127)
  }

  /** What the buffer holds after the link: offsets of labels, and beside each
      reference how much it shrank. */
  ghost predicate Fixed(acts: seq<Act>, shr: seq<nat>, n: nat, b: seq<int>)
    requires n <= |acts| == |shr|
  {
    forall k: nat :: k < n ==> FixedAt(acts, shr, k, b)
  }

  ghost predicate FixedAt(acts: seq<Act>, shr: seq<nat>, k: nat, b: seq<int>)
    requires k < |acts| == |shr|
  {
    && (acts[k].Label? ==> Slot(acts, k) < |b| && b[Slot(acts, k)] == Off(acts, shr, k))
    && (acts[k].Rel() ==> Slot(acts, k) + 1 < |b| && b[Slot(acts, k) + 1] == shr[k])
  }

  /** References keep the positions of their labels. */
  ghost predicate Pointing(acts: seq<Act>, b: seq<int>) {
    forall k: nat :: k < |acts| && acts[k].Rel() ==>
      Meant(acts, k, |acts|).Some? && Slot(acts, k) < |b|
          && b[Slot(acts, k)] == Slot(acts, Meant(acts, k, |acts|).value)
  }

  /** The estimates from action `n` on are still there. */
  ghost predicate EstimatedFrom(acts: seq<Act>, n: nat, b: seq<int>)
    requires n <= |acts|
  {
    forall k: nat :: n <= k < |acts| ==> EstimateAt(acts, k, b)
  }

  /** What was known when a reference was made short. */
  ghost predicate Decided(acts: seq<Act>, shr: seq<nat>, n: nat)
    requires n <= |acts| == |shr| && AllMeant(acts)
  {
    forall k: nat :: k < |acts| ==>
      && (shr[k] == 0 || (k < n && acts[k].Rel() && shr[k] == ShrinkBy(acts, k)))
      && (acts[k].Rel() && shr[k] > 0 ==>
            var t := Meant(acts, k, |acts|).value;
            if t > k then Est(acts, t) - Est(acts, k + 1) <= 127 else Off(acts, shr, t) - Off(acts, shr, k + 1) >= -128)
      && (k < n ==> Refused(acts, shr, k))
  }

  /** A branch that stays long would not reach with one byte, as far as the sweep can
      tell when it comes there: forwards by the estimates, backwards by the offsets. */
  ghost predicate Refused(acts: seq<Act>, shr: seq<nat>, k: nat)
    requires k < |acts| == |shr| && AllMeant(acts)
  {
    acts[k].Rel() && ShrinkBy(acts, k) > 0 && shr[k] == 0 ==>
      var t := Meant(acts, k, |acts|).value;
      if t > k then Est(acts, t) - Est(acts, k + 1) > 127
      else Off(acts, shr, t) - Off(acts, shr, k) - 4 + ShrinkBy(acts, k) < -128
  }

  /** The invariant of the sweep implies what is promised at its end. */
  lemma DecidedSafe(acts: seq<Act>, shr: seq<nat>)
    requires |shr| == |acts| && AllMeant(acts) && Decided(acts, shr, |acts|)
    ensures Safe(acts, shr)
  {
    hide Off, Est, ShrinkBy, Meant;
    forall k: nat | k < |acts| && acts[k].Rel() && shr[k] > 0 ensures -128 <= Disp(acts, shr, k) <= 127 {
      var t := Meant(acts, k, |acts|).value;
      if t > k { ShiftDown(acts, shr, k + 1, t); } else { ShiftDown(acts, shr, t, k + 1); }
    }
  }

  /** Some reference to `l` has no label. */
  ghost predicate Dangling(acts: seq<Act>, l: nat) {
    exists k: nat :: k < |acts| && acts[k].Rel() && acts[k].key == l && Meant(acts, k, |acts|).None?
  }

  /** A label array entry above 0 says so after pass 1. */
  lemma EntryDangles(acts: seq<Act>, labels: seq<int>, b: seq<int>, l: nat)
    requires Put(acts, |acts|, labels, b) && l < |labels|
    ensures labels[l] > 0 <==> Dangling(acts, l)
  {
    hide Slot, Known, Waiting, Meant, Chained, Resolved, Estimated;
    var n := |acts|;
    var w := Waiting(acts, n, l);
    assert labels[l] == Anchor(acts, n, l);
    WaitingBounds(acts, n, l);
    if Known(acts, n, l).Some? {
      KnownIdle(acts, n, l);
      SlotsPositive(acts, Known(acts, n, l).value);
    }
    if w != [] {
      SlotsPositive(acts, w[0]);
      WaitingMeant(acts, n, w[0]);
    }
    forall k: nat | k < n && acts[k].Rel() && acts[k].key == l ensures Meant(acts, k, n).None? <==> k in w {
      WaitingMeant(acts, n, k);
    }
  }

  lemma NoneDangles(acts: seq<Act>, nlabels: nat)
    requires forall k :: 0 <= k < |acts| && acts[k].Rel() ==> acts[k].key < nlabels
    ensures AllMeant(acts) <==> forall l: nat :: l < nlabels ==> !Dangling(acts, l)
  {
    hide Meant;
    assert forall k: nat :: k < |acts| && acts[k].Rel() && Meant(acts, k, |acts|).None? ==> Dangling(acts, acts[k].key);
  }

  /** The check of the link (dynasm/dasm_x86.h:271-279): the first label that is referred
      to and not there. */
  method CheckLabels(acts: seq<Act>, labels: seq<int>, ghost b: seq<int>) returns (undefined: Option<nat>)
    requires Put(acts, |acts|, labels, b) && forall k :: 0 <= k < |acts| && acts[k].Rel() ==> acts[k].key < |labels|
    ensures undefined.None? <==> AllMeant(acts)
    ensures undefined.Some? ==> Dangling(acts, undefined.value) && forall l: nat :: l < undefined.value ==>
            !Dangling(acts, l)
  {
    hide Put, Dangling, AllMeant;
    NoneDangles(acts, |labels|);
    for l := 0 to |labels|
      invariant forall i: nat :: i < l ==> !Dangling(acts, i)
    {
      EntryDangles(acts, labels, b, l);
      if labels[l] > 0 { return Some(l); }
    }
    undefined := None;
  }

  lemma DecidedRefused(acts: seq<Act>, shr: seq<nat>)
    requires |shr| == |acts| && AllMeant(acts) && Decided(acts, shr, |acts|)
    ensures forall k: nat :: k < |acts| && acts[k].Rel() && ShrinkBy(acts, k) > 0 && shr[k] == 0 ==>
              Meant(acts, k, |acts|).Some? &&
              var t := Meant(acts, k, |acts|).value;
              if t > k then Est(acts, t) - Est(acts, k + 1) > 127
              else Off(acts, shr, t) - Off(acts, shr, k) - 4 + ShrinkBy(acts, k) < -128
  {
    hide Off, Est, ShrinkBy, Meant;
    assert forall k: nat :: k < |acts| ==> Refused(acts, shr, k);
  }

  /** Pass 2. */
  method Link(acts: seq<Act>, labels: seq<int>, b0: seq<int>, ofs0: nat)
      returns (b: seq<int>, codesize: int, ghost shr: seq<nat>)
    requires Put(acts, |acts|, labels, b0) && AllMeant(acts) && ofs0 == Est(acts, |acts|)
    ensures Safe(acts, shr) && Fixed(acts, shr, |acts|, b) && Pointing(acts, b) && |b| == |b0|
    ensures codesize == Off(acts, shr, |acts|)
    ensures forall k: nat :: k < |acts| && acts[k].Rel() && ShrinkBy(acts, k) > 0 && shr[k] == 0 ==>
              var t := Meant(acts, k, |acts|).value;
              if t > k then Est(acts, t) - Est(acts, k + 1) > 127
              else Off(acts, shr, t) - Off(acts, shr, k) - 4 + ShrinkBy(acts, k) < -128
  {
    hide *;
    LinkStarts(acts, labels, b0);
    b := b0;
    shr := seq(|acts|, _ => 0);
    Undecided(acts, shr, b);
    var k, pos, ofs := 0, 1, 0;
    while k < |acts|
      invariant 0 <= k <= |acts| == |shr| && pos == Slot(acts, k) && ofs == Off(acts, shr, k) - Est(acts, k)
                && |b| == |b0|
      invariant Decided(acts, shr, k) && Fixed(acts, shr, k, b) && Pointing(acts, b) && EstimatedFrom(acts, k, b)
    {
      KindStep(acts, shr, k);
      match acts[k] {
        case Byte(_) =>
          IdleStep(acts, shr, k, b);
        case Label(_) =>
          LabelStep(acts, shr, k, b, ofs);
          b := b[pos := b[pos] + ofs];
          pos := pos + 1;
        case Align(mask) =>
          AlignStep(acts, shr, k, b, ofs);
          IdleStep(acts, shr, k, b);
          ofs := ofs - (b[pos] + ofs) % (mask + 1);
          pos := pos + 1;
        case _ =>
          RelFacts(acts, shr, k, b);
          var shrink := ShrinkBy(acts, k);
          if shrink != 0 {
            var lpos := b[pos];
            var lofs := b[lpos];
            if lpos <= pos { lofs := lofs - ofs; }
            lofs := lofs - b[pos + 1];
            TestIs(acts, shr, k, ofs, shrink, lofs);
            if lofs + shrink < -128 || lofs > 127 { shrink := 0; }
          }
          RelStep(acts, shr, k, b, ofs, shrink);
          ofs := ofs - shrink;
          b := b[pos + 1 := shrink];
          shr := shr[k := shrink];
          pos := pos + 2;
      }
      k := k + 1;
    }
    DecidedSafe(acts, shr);
    DecidedRefused(acts, shr);
    codesize := ofs + ofs0;
  }

  lemma LinkStarts(acts: seq<Act>, labels: seq<int>, b: seq<int>)
    requires Put(acts, |acts|, labels, b) && AllMeant(acts)
    ensures Pointing(acts, b) && EstimatedFrom(acts, 0, b)
  {
    hide Est, Slot, Anchored, Chained, Meant;
  }

  lemma Undecided(acts: seq<Act>, shr: seq<nat>, b: seq<int>)
    requires |shr| == |acts| && AllMeant(acts) && forall k :: 0 <= k < |shr| ==> shr[k] == 0
    ensures Decided(acts, shr, 0) && Fixed(acts, shr, 0, b) && Slot(acts, 0) == 1
            && Off(acts, shr, 0) == 0 == Est(acts, 0)
  {
  }

  lemma KindStep(acts: seq<Act>, shr: seq<nat>, k: nat)
    requires k < |acts| == |shr|
    ensures Slot(acts, k + 1) == Slot(acts, k) + Width(acts[k]) && Est(acts, k + 1) == Est(acts, k) + MaxSize(acts[k])
    ensures var next := Off(acts, shr, k + 1);
            match acts[k]
            case Byte(_) => next == Off(acts, shr, k) + 1 && Width(acts[k]) == 0 && MaxSize(acts[k]) == 1
            case Label(_) => next == Off(acts, shr, k) && Width(acts[k]) == 1 && MaxSize(acts[k]) == 0
            case Align(mask) => next == RoundUp(Off(acts, shr, k), mask) && Width(acts[k]) == 1
                                && MaxSize(acts[k]) == mask
            case _ => Width(acts[k]) == 2 && MaxSize(acts[k]) == 4 && acts[k].Rel()
  {
  }

  /** Nothing is decided or fixed at a byte or an alignment. */
  lemma IdleStep(acts: seq<Act>, shr: seq<nat>, k: nat, b: seq<int>)
    requires k < |acts| == |shr| && (acts[k].Byte? || acts[k].Align?) && AllMeant(acts)
    requires Decided(acts, shr, k) && Fixed(acts, shr, k, b) && EstimatedFrom(acts, k, b)
    ensures Decided(acts, shr, k + 1) && Fixed(acts, shr, k + 1, b) && EstimatedFrom(acts, k + 1, b)
  {
    hide Off, Est, Slot, ShrinkBy, AllMeant, Meant;
    var n := k + 1;
    forall j: nat | j < n ensures FixedAt(acts, shr, j, b) {
      if j < k { assert FixedAt(acts, shr, j, b); }
    }
  }

  lemma AlignStep(acts: seq<Act>, shr: seq<nat>, k: nat, b: seq<int>, ofs: int)
    requires k < |acts| == |shr| && acts[k].Align? && EstimatedFrom(acts, k, b)
             && ofs == Off(acts, shr, k) - Est(acts, k)
    ensures Slot(acts, k) < |b|
    ensures RoundUp(Off(acts, shr, k), acts[k].mask) - Est(acts, k + 1) ==
            ofs - (b[Slot(acts, k)] + ofs) % (acts[k].mask + 1)
  {
    EstNext(acts, k);
    assert EstimateAt(acts, k, b);
    hide Off, Est, Slot;
  }

  /** The offset of a label is final. */
  lemma LabelStep(acts: seq<Act>, shr: seq<nat>, k: nat, b: seq<int>, ofs: int)
    requires k < |acts| == |shr| && acts[k].Label? && AllMeant(acts) && ofs == Off(acts, shr, k) - Est(acts, k)
    requires Decided(acts, shr, k) && Fixed(acts, shr, k, b) && EstimatedFrom(acts, k, b) && Pointing(acts, b)
    ensures Slot(acts, k) < |b|
    ensures var b' := b[Slot(acts, k) := b[Slot(acts, k)] + ofs];
            Decided(acts, shr, k + 1) && Fixed(acts, shr, k + 1, b') && EstimatedFrom(acts, k + 1, b')
                && Pointing(acts, b')
  {
    hide Off, Est, Slot, ShrinkBy, AllMeant, Meant;
    assert EstimateAt(acts, k, b);
    var b', n := b[Slot(acts, k) := b[Slot(acts, k)] + ofs], k + 1;
    forall j: nat | j < |acts|
      ensures j < n ==> FixedAt(acts, shr, j, b')
      ensures n <= j ==> EstimateAt(acts, j, b')
      ensures acts[j].Rel() ==> Slot(acts, j) != Slot(acts, k)
    {
      if j != k { SlotsApart(acts, j, k); }
      if j < k { assert FixedAt(acts, shr, j, b); }
      if j > k { assert EstimateAt(acts, j, b); }
    }
  }

  lemma SlotsApart(acts: seq<Act>, j: nat, k: nat)
    requires j < |acts| && k < |acts| && j != k && Width(acts[k]) > 0
    ensures Width(acts[j]) > 0 ==> Slot(acts, j) != Slot(acts, k)
    ensures acts[j].Rel() ==> Slot(acts, j) + 1 != Slot(acts, k)
    ensures acts[k].Rel() && Width(acts[j]) > 0 ==> Slot(acts, j) != Slot(acts, k) + 1
    ensures acts[k].Rel() && acts[j].Rel() ==> Slot(acts, j) + 1 != Slot(acts, k) + 1
  {
    if j < k { SlotApart(acts, j, k); } else { SlotApart(acts, k, j); }
  }

  /** What the sweep reads at a reference. */
  lemma RelFacts(acts: seq<Act>, shr: seq<nat>, k: nat, b: seq<int>)
    requires k < |acts| == |shr| && acts[k].Rel() && AllMeant(acts)
    requires Fixed(acts, shr, k, b) && EstimatedFrom(acts, k, b) && Pointing(acts, b)
    ensures Slot(acts, k) + 1 < |b| && b[Slot(acts, k) + 1] == Est(acts, k + 1)
    ensures var t := Meant(acts, k, |acts|).value;
            && b[Slot(acts, k)] == Slot(acts, t) < |b| && (Slot(acts, t) > Slot(acts, k) <==> t > k)
            && b[Slot(acts, t)] == (if t > k then Est(acts, t) else Off(acts, shr, t))
  {
    hide Off, Est, Slot;
    var t := Meant(acts, k, |acts|).value;
    assert EstimateAt(acts, k, b) && (t > k ==> EstimateAt(acts, t, b)) && (t < k ==> FixedAt(acts, shr, t, b));
    if t > k { SlotApart(acts, k, t); } else { SlotApart(acts, t, k); }
  }

  /** A decision about a branch. */
  lemma RelStep(acts: seq<Act>, shr: seq<nat>, k: nat, b: seq<int>, ofs: int, shrink: nat)
    requires k < |acts| == |shr| && acts[k].Rel() && AllMeant(acts) && ofs == Off(acts, shr, k) - Est(acts, k)
    requires Decided(acts, shr, k) && Fixed(acts, shr, k, b) && EstimatedFrom(acts, k, b) && Pointing(acts, b)
    requires shrink == 0 || (shrink == ShrinkBy(acts, k) && Reaches(acts, shr, k, ofs, shrink))
    requires shrink == 0 < ShrinkBy(acts, k) ==> !Reaches(acts, shr, k, ofs, ShrinkBy(acts, k))
    ensures Slot(acts, k) + 1 < |b| && shrink <= 4
    ensures var b', shr' := b[Slot(acts, k) + 1 := shrink], shr[k := shrink];
            && Decided(acts, shr', k + 1) && Fixed(acts, shr', k + 1, b') && EstimatedFrom(acts, k + 1, b')
            && Pointing(acts, b')
            && Off(acts, shr', k + 1) == Off(acts, shr, k) + 4 - shrink
  {
    var shr' := shr[k := shrink];
    assert shrink <= 4;
    forall j: nat | j <= k ensures Off(acts, shr', j) == Off(acts, shr, j) { OffSame(acts, shr, shr', j); }
    OffNext(acts, shr', k);
    EstNext(acts, k);
    hide Off, Est, Slot, ShrinkBy;
    DecidedMore(acts, shr, shr', k, ofs, shrink);
    FixedMore(acts, shr, shr', k, b, shrink);
  }

  /** The test of the sweep, in terms of what it reads. */
  ghost predicate Reaches(acts: seq<Act>, shr: seq<nat>, k: nat, ofs: int, shrink: nat)
    requires k < |acts| == |shr| && acts[k].Rel() && AllMeant(acts)
  {
    var t := Meant(acts, k, |acts|).value;
    var lofs := (if t > k then Est(acts, t) else Off(acts, shr, t) - ofs) - Est(acts, k + 1);
    -128 <= lofs + shrink && lofs <= 127
  }

  lemma TestIs(acts: seq<Act>, shr: seq<nat>, k: nat, ofs: int, shrink: nat, lofs: int)
    requires k < |acts| == |shr| && acts[k].Rel() && AllMeant(acts)
    requires var t := Meant(acts, k, |acts|).value;
             lofs == (if t > k then Est(acts, t) else Off(acts, shr, t) - ofs) - Est(acts, k + 1)
    ensures Reaches(acts, shr, k, ofs, shrink) <==> -128 <= lofs + shrink && lofs <= 127
  {
  }

  lemma DecidedMore(acts: seq<Act>, shr: seq<nat>, shr': seq<nat>, k: nat, ofs: int, shrink: nat)
    requires k < |acts| == |shr| && acts[k].Rel() && AllMeant(acts) && ofs == Off(acts, shr, k) - Est(acts, k)
             && shr' == shr[k := shrink]
    requires Decided(acts, shr, k)
             && (shrink == 0 || (shrink == ShrinkBy(acts, k) && Reaches(acts, shr, k, ofs, shrink)))
    requires shrink == 0 < ShrinkBy(acts, k) ==> !Reaches(acts, shr, k, ofs, ShrinkBy(acts, k))
    requires forall j: nat :: j <= k ==> Off(acts, shr', j) == Off(acts, shr, j)
    requires Off(acts, shr', k + 1) == Off(acts, shr, k) + 4 - shrink && Est(acts, k + 1) == Est(acts, k) + 4
    ensures Decided(acts, shr', k + 1)
  {
    hide Off, Est, ShrinkBy, Meant;
    forall j: nat | j <= k ensures Refused(acts, shr', j) {
      if j == k {
        RefusedNow(acts, shr, shr', k, ofs);
      } else {
        assert Refused(acts, shr, j);
      }
    }
  }

  /** A branch that stays long when it is decided. */
  lemma RefusedNow(acts: seq<Act>, shr: seq<nat>, shr': seq<nat>, k: nat, ofs: int)
    requires k < |acts| == |shr| == |shr'| && acts[k].Rel() && AllMeant(acts) && ofs == Off(acts, shr, k) - Est(acts, k)
    requires shr'[k] == 0 < ShrinkBy(acts, k) ==> !Reaches(acts, shr, k, ofs, ShrinkBy(acts, k))
    requires forall j: nat :: j <= k ==> Off(acts, shr', j) == Off(acts, shr, j)
    requires Est(acts, k + 1) == Est(acts, k) + 4
    ensures Refused(acts, shr', k)
  {
    hide Off, Est, ShrinkBy, Meant;
    var t := Meant(acts, k, |acts|).value;
    if t > k { ShiftDown(acts, shr, k + 1, t); } else { ShiftDown(acts, shr, t, k); }
  }

  lemma RelFits(acts: seq<Act>, k: nat, b: seq<int>)
    requires k < |acts| && acts[k].Rel() && EstimatedFrom(acts, k, b)
    ensures Slot(acts, k) + 1 < |b|
  {
    assert EstimateAt(acts, k, b);
  }

  lemma FixedMore(acts: seq<Act>, shr: seq<nat>, shr': seq<nat>, k: nat, b: seq<int>, shrink: nat)
    requires k < |acts| == |shr| && acts[k].Rel() && shr' == shr[k := shrink]
    requires Fixed(acts, shr, k, b) && EstimatedFrom(acts, k, b) && Pointing(acts, b)
    requires forall j: nat :: j <= k ==> Off(acts, shr', j) == Off(acts, shr, j)
    ensures Slot(acts, k) + 1 < |b|
    ensures var b' := b[Slot(acts, k) + 1 := shrink];
            Fixed(acts, shr', k + 1, b') && EstimatedFrom(acts, k + 1, b') && Pointing(acts, b')
  {
    RelFits(acts, k, b);
    hide Off, Est, Slot, Meant;
    var b', n := b[Slot(acts, k) + 1 := shrink], k + 1;
    forall j: nat | j < |acts|
      ensures j < n ==> FixedAt(acts, shr', j, b')
      ensures n <= j ==> EstimateAt(acts, j, b')
      ensures acts[j].Rel() ==> Slot(acts, j) != Slot(acts, k) + 1
    {
      if j != k { SlotsApart(acts, j, k); }
      if j < k { assert FixedAt(acts, shr, j, b); }
      if j > k { assert EstimateAt(acts, j, b); }
    }
  }
}
