/** Pass 3 (dynasm/dasm_x86.h:358-438): the code that is written is exactly as long as
    the link says, and every branch reaches its label. */
module DynAsmEncode {
  import opened DynAsm
  import opened DynAsmLink

  /** The byte before a relocation looks like a branch only if it is one. */
  ghost predicate Branches(acts: seq<Act>) {
    && (forall k: nat :: k < |acts| && acts[k].Byte? ==> acts[k].code < 256)
    && forall k: nat :: k < |acts| && acts[k].Rel() && ShrinkBy(acts, k) == 4 ==> k >= 2 && acts[k - 2] == Byte(0x0f)
  }

  /** The byte `j` gives way to the short form of a branch before action `n`. */
  ghost predicate Swallowed(acts: seq<Act>, shr: seq<nat>, n: nat, j: nat)
    requires n <= |acts| == |shr|
  {
    || (j + 1 < n && acts[j + 1].Rel() && shr[j + 1] > 0)
    || (j + 2 < n && acts[j + 2].Rel() && shr[j + 2] == 4)
  }

  /** Byte `i` of a number as it is stored, lowest first. */
  function Digit(disp: int, i: nat): (r: nat)
    ensures r < 256
    decreases i
  {
    if i == 0 then disp % 256 else Digit(disp / 256, i - 1)
  }

  /** A displacement as it is stored in `size` bytes. */
  ghost predicate Stored(c: seq<nat>, at: nat, size: nat, disp: int) {
    at + size <= |c| && forall i: nat :: i < size ==> c[at + i] == Digit(disp, i)
  }

  /** The opcode of the short form of a branch. */
  function ShortOpcode(acts: seq<Act>, shr: seq<nat>, j: nat): int
    requires j < |acts| == |shr|
  {
    if shr[j] == 3 then 0xeb else if j > 0 && acts[j - 1].Byte? then acts[j - 1].code - 0x10 else 0
  }

  /** Action `j` in the code: bytes as they are given, alignments filled with nops,
      references with the distance to their label in one byte or in four. */
  ghost predicate Emitted(acts: seq<Act>, shr: seq<nat>, n: nat, j: nat, c: seq<nat>)
    requires j < n <= |acts| == |shr| && AllMeant(acts)
  {
    var from, to := Off(acts, shr, j), Off(acts, shr, j + 1);
    && to <= |c|
    && (acts[j].Byte? && !Swallowed(acts, shr, n, j) ==> from < to && c[from] == acts[j].code)
    && (acts[j].Align? ==> forall i :: from <= i < to ==> c[i] == 0x90)
    && (acts[j].Rel() && shr[j] == 0 ==> to >= 4 && Stored(c, to - 4, 4, Disp(acts, shr, j)))
    && (acts[j].Rel() && shr[j] > 0 ==>
          to >= 2 && Stored(c, to - 1, 1, Disp(acts, shr, j)) && c[to - 2] == ShortOpcode(acts, shr, j))
  }

  ghost predicate AllEmitted(acts: seq<Act>, shr: seq<nat>, n: nat, c: seq<nat>)
    requires n <= |acts| == |shr| && AllMeant(acts)
  {
    forall j: nat :: j < n ==> Emitted(acts, shr, n, j, c)
  }

  /** How far a branch reaches back to rewrite its opcode. */
  function Back(acts: seq<Act>, shr: seq<nat>, k: nat): nat
    requires k < |acts| == |shr|
  {
    if !acts[k].Rel() || shr[k] == 0 then 0 else if shr[k] == 4 then 2 else 1
  }

  lemma SafeAt(acts: seq<Act>, shr: seq<nat>, k: nat)
    requires k < |acts| && Safe(acts, shr)
    ensures |shr| == |acts| && AllMeant(acts) && (shr[k] == 0 || (acts[k].Rel() && shr[k] == ShrinkBy(acts, k)))
    ensures acts[k].Rel() ==> Meant(acts, k, |acts|).Some? && shr[k] <= 4
    ensures acts[k].Rel() && shr[k] > 0 ==> -128 <= Disp(acts, shr, k) <= 127
  {
    hide Off, Disp, Meant;
  }

  /** The bytes a short branch rewrites are its own opcode. */
  lemma OpcodeIs(acts: seq<Act>, shr: seq<nat>, k: nat)
    requires k < |acts| == |shr| && Branches(acts) && (shr[k] == 0 || (acts[k].Rel() && shr[k] == ShrinkBy(acts, k)))
    ensures var back := Back(acts, shr, k); back <= k && forall j: nat :: k - back <= j < k ==>
            acts[j].Byte? && acts[j].code < 256
    ensures acts[k].Rel() && shr[k] > 0 ==> (shr[k] == 3 || (shr[k] == 4 && acts[k - 1].code >= 0x80))
  {
  }

  lemma BackIs(acts: seq<Act>, shr: seq<nat>, k: nat)
    requires k < |acts| && Safe(acts, shr) && Branches(acts)
    ensures |shr| == |acts| && AllMeant(acts)
    ensures var back := Back(acts, shr, k); back <= k && Off(acts, shr, k - back) == Off(acts, shr, k) - back
    ensures forall j: nat :: k - Back(acts, shr, k) <= j < k ==> acts[j].Byte? && Swallowed(acts, shr, k + 1, j)
  {
    hide *;
    SafeAt(acts, shr, k);
    OpcodeIs(acts, shr, k);
    BackRange(acts, shr, k);
    var back := Back(acts, shr, k);
    if back > 0 { OffNext(acts, shr, k - 1); }
    if back > 1 { OffNext(acts, shr, k - 2); }
    var n := k + 1;
    forall j: nat | k - back <= j < k ensures Swallowed(acts, shr, n, j) {
      SwallowedIs(acts, shr, k, j);
    }
  }

  lemma BackRange(acts: seq<Act>, shr: seq<nat>, k: nat)
    requires k < |acts| == |shr|
    ensures Back(acts, shr, k) <= 2
  {
  }

  lemma SwallowedIs(acts: seq<Act>, shr: seq<nat>, k: nat, j: nat)
    requires k < |acts| == |shr| && k - Back(acts, shr, k) <= j < k
    ensures Swallowed(acts, shr, k + 1, j)
  {
  }

  /** One action more in the code. */
  lemma EmittedMore(acts: seq<Act>, shr: seq<nat>, k: nat, c: seq<nat>, c': seq<nat>)
    requires k < |acts| && Safe(acts, shr) && Branches(acts) && AllEmitted(acts, shr, k, c) && |c'| == |c|
    requires Off(acts, shr, k) <= |c| && forall i :: 0 <= i < Off(acts, shr, k) - Back(acts, shr, k) ==> c'[i] == c[i]
    requires Emitted(acts, shr, k + 1, k, c')
    ensures AllEmitted(acts, shr, k + 1, c')
  {
    hide *;
    BackIs(acts, shr, k);
    var back, n := Back(acts, shr, k), k + 1;
    forall j: nat | j < n ensures Emitted(acts, shr, n, j, c') {
      if j < k {
        EmittedAt(acts, shr, k, j, c);
        if j < k - back {
          ShiftDown(acts, shr, j + 1, k - back);
          EmittedStill(acts, shr, k, j, c, c');
        } else {
          ShiftDown(acts, shr, j + 1, k);
          SwallowedItem(acts, shr, n, j, c');
        }
      }
    }
    EmittedAll(acts, shr, n, c');
  }

  lemma EmittedAt(acts: seq<Act>, shr: seq<nat>, n: nat, j: nat, c: seq<nat>)
    requires j < n <= |acts| == |shr| && AllMeant(acts) && AllEmitted(acts, shr, n, c)
    ensures Emitted(acts, shr, n, j, c)
  {
    hide Emitted, AllMeant;
  }

  lemma EmittedAll(acts: seq<Act>, shr: seq<nat>, n: nat, c: seq<nat>)
    requires n <= |acts| == |shr| && AllMeant(acts) && forall j: nat :: j < n ==> Emitted(acts, shr, n, j, c)
    ensures AllEmitted(acts, shr, n, c)
  {
    hide Emitted, AllMeant;
  }

  lemma EmittedStill(acts: seq<Act>, shr: seq<nat>, k: nat, j: nat, c: seq<nat>, c': seq<nat>)
    requires j < k < |acts| == |shr| && AllMeant(acts) && Emitted(acts, shr, k, j, c) && |c'| == |c|
    requires forall i :: 0 <= i < Off(acts, shr, j + 1) && i < |c| ==> c'[i] == c[i]
    ensures Emitted(acts, shr, k + 1, j, c')
  {
    hide Off, AllMeant, Disp, Digit, ShortOpcode, Meant;
  }

  lemma SwallowedItem(acts: seq<Act>, shr: seq<nat>, n: nat, j: nat, c: seq<nat>)
    requires j < n <= |acts| == |shr| && AllMeant(acts) && acts[j].Byte? && Swallowed(acts, shr, n, j)
             && Off(acts, shr, j + 1) <= |c|
    ensures Emitted(acts, shr, n, j, c)
  {
    hide Off, AllMeant, Disp, Swallowed, Meant;
  }

  /** Nops up to the next aligned offset. */
  method Nops(code: array<nat>, from: nat, mask: nat) returns (cp: nat)
    requires RoundUp(from, mask) <= code.Length
    modifies code
    ensures cp == RoundUp(from, mask)
    ensures forall i :: from <= i < cp ==> code[i] == 0x90
    ensures forall i :: 0 <= i < code.Length && !(from <= i < cp) ==> code[i] == old(code[i])
  {
    hide *;
    cp := from;
    while cp % (mask + 1) != 0
      invariant from <= cp <= RoundUp(from, mask)
      invariant forall i :: from <= i < cp ==> code[i] == 0x90
      invariant forall i :: 0 <= i < code.Length && !(from <= i < cp) ==> code[i] == old(code[i])
      decreases RoundUp(from, mask) - cp
    {
      code[cp] := 0x90;
      cp := cp + 1;
    }
    FirstAligned(from, mask, cp);
  }

  /** No offset before the rounded one is aligned. */
  lemma FirstAligned(from: nat, mask: nat, at: nat)
    requires from <= at <= RoundUp(from, mask) && at % (mask + 1) == 0
    ensures at == RoundUp(from, mask)
  {
    var r, m := RoundUp(from, mask), mask + 1;
    hide *;
    Scaled(r / m - at / m, m);
    assert r == m * (r / m) && at == m * (at / m);
    assert (r / m - at / m) * m == r - at;
  }

  /** The four bytes of a displacement. */
  method PutLong(code: array<nat>, cp: nat, disp: int)
    requires cp + 4 <= code.Length
    modifies code
    ensures Stored(code[..], cp, 4, disp)
    ensures forall i :: 0 <= i < code.Length && !(cp <= i < cp + 4) ==> code[i] == old(code[i])
  {
    var rest, i: nat := disp, 0;
    while i < 4
      invariant i <= 4 && forall j: nat :: Digit(rest, j) == Digit(disp, i + j)
      invariant forall j: nat :: j < i ==> code[cp + j] == Digit(disp, j)
      invariant forall k :: 0 <= k < code.Length && !(cp <= k < cp + 4) ==> code[k] == old(code[k])
    {
      assert Digit(rest, 0) == Digit(disp, i + 0);
      code[cp + i] := rest % 256;
      ghost var was := rest;
      rest := rest / 256;
      forall j: nat ensures Digit(rest, j) == Digit(disp, i + 1 + j) {
        assert Digit(was, j + 1) == Digit(disp, i + (j + 1));
      }
      i := i + 1;
    }
  }

  /** The reference `k`, whose displacement is `disp`. */
  method PutBranch(acts: seq<Act>, ghost shr: seq<nat>, code: array<nat>, k: nat, from: nat, shrink: nat, disp: int)
    returns (cp: nat)
    requires k < |acts| && Safe(acts, shr) && Branches(acts) && acts[k].Rel() && AllEmitted(acts, shr, k, code[..])
    requires from == Off(acts, shr, k) && shrink == shr[k] && disp == Disp(acts, shr, k)
             && Off(acts, shr, k + 1) <= code.Length
    modifies code
    ensures |shr| == |acts| && AllMeant(acts) && cp == Off(acts, shr, k + 1)
    ensures Emitted(acts, shr, k + 1, k, code[..])
    ensures forall i :: 0 <= i < from - Back(acts, shr, k) ==> code[i] == old(code[i])
  {
    hide *;
    ghost var c := code[..];
    SafeAt(acts, shr, k);
    BranchFacts(acts, shr, k, c);
    cp := from;
    if shrink == 0 {
      PutLong(code, cp, disp);
      cp := cp + 4;
    } else {
      if shrink == 4 {
        cp := cp - 1;
        code[cp - 1] := code[cp] - 0x10;
      } else {
        code[cp - 1] := 0xeb;
      }
      code[cp] := disp % 256;
      cp := cp + 1;
      OneByte(code[..], cp - 1, disp);
    }
    BranchItem(acts, shr, k, code[..]);
  }

  lemma OneByte(c: seq<nat>, at: nat, disp: int)
    requires at < |c| && c[at] == disp % 256
    ensures Stored(c, at, 1, disp)
  {
  }

  /** What is in the code before a branch. */
  lemma BranchFacts(acts: seq<Act>, shr: seq<nat>, k: nat, c: seq<nat>)
    requires k < |acts| && Safe(acts, shr) && Branches(acts) && acts[k].Rel() && AllEmitted(acts, shr, k, c)
    ensures var from, to := Off(acts, shr, k), Off(acts, shr, k + 1);
            && to == from + 4 - shr[k]
            && (shr[k] == 0 || shr[k] == 3 || shr[k] == 4)
            && (shr[k] == 0 ==> Back(acts, shr, k) == 0) && (shr[k] == 3 ==> from >= 1 && Back(acts, shr, k) == 1)
            && (shr[k] == 3 ==> ShortOpcode(acts, shr, k) == 0xeb)
            && (shr[k] == 4 ==>
                  && from >= 2 && Back(acts, shr, k) == 2
                  && from <= |c| && c[from - 1] >= 0x80 && ShortOpcode(acts, shr, k) == c[from - 1] - 0x10)
  {
    hide *;
    SafeAt(acts, shr, k);
    OpcodeIs(acts, shr, k);
    RelKind(acts[k]);
    OffNext(acts, shr, k);
    BackIs(acts, shr, k);
    BackOf(acts, shr, k);
    if shr[k] == 4 {
      EmittedAt(acts, shr, k, k - 1, c);
      OwnByte(acts, shr, k, c);
    }
  }

  lemma BackOf(acts: seq<Act>, shr: seq<nat>, k: nat)
    requires k < |acts| == |shr| && acts[k].Rel()
    ensures Back(acts, shr, k) == (if shr[k] == 0 then 0 else if shr[k] == 4 then 2 else 1)
    ensures shr[k] == 3 ==> ShortOpcode(acts, shr, k) == 0xeb
    ensures shr[k] == 4 && k > 0 && acts[k - 1].Byte? ==> ShortOpcode(acts, shr, k) == acts[k - 1].code - 0x10
  {
  }

  lemma OwnByte(acts: seq<Act>, shr: seq<nat>, k: nat, c: seq<nat>)
    requires 0 < k < |acts| == |shr| && AllMeant(acts) && acts[k - 1].Byte? && Emitted(acts, shr, k, k - 1, c)
    requires shr[k] == 4 && acts[k].Rel()
    ensures Off(acts, shr, k) > 0 && Off(acts, shr, k) <= |c| && c[Off(acts, shr, k) - 1] == acts[k - 1].code
  {
    OffNext(acts, shr, k - 1);
    hide Off, AllMeant, Disp, Digit, ShortOpcode, Meant;
  }

  lemma BranchItem(acts: seq<Act>, shr: seq<nat>, k: nat, c: seq<nat>)
    requires k < |acts| == |shr| && AllMeant(acts) && acts[k].Rel() && Off(acts, shr, k + 1) <= |c|
    requires var to := Off(acts, shr, k + 1);
             if shr[k] == 0 then to >= 4 && Stored(c, to - 4, 4, Disp(acts, shr, k))
             else to >= 2 && Stored(c, to - 1, 1, Disp(acts, shr, k)) && c[to - 2] == ShortOpcode(acts, shr, k)
    ensures Emitted(acts, shr, k + 1, k, c)
  {
    hide Off, AllMeant, Disp, ShortOpcode, Stored, Meant;
  }

  lemma PlainItem(acts: seq<Act>, shr: seq<nat>, k: nat, c: seq<nat>)
    requires k < |acts| == |shr| && AllMeant(acts) && !acts[k].Rel() && Off(acts, shr, k + 1) <= |c|
    requires acts[k].Byte? ==> Off(acts, shr, k) < Off(acts, shr, k + 1) && c[Off(acts, shr, k)] == acts[k].code
    requires acts[k].Align? ==> forall i :: Off(acts, shr, k) <= i < Off(acts, shr, k + 1) ==> c[i] == 0x90
    ensures Emitted(acts, shr, k + 1, k, c) && Back(acts, shr, k) == 0
  {
    hide Off, AllMeant, Disp, ShortOpcode, Stored, Meant, Swallowed;
  }

  /** What pass 3 reads at a reference. */
  lemma ReadsRight(acts: seq<Act>, shr: seq<nat>, b: seq<int>, k: nat)
    requires k < |acts| && Safe(acts, shr) && Fixed(acts, shr, |acts|, b) && Pointing(acts, b) && acts[k].Rel()
    ensures Slot(acts, k) + 1 < |b| && b[Slot(acts, k) + 1] == shr[k] && 0 <= b[Slot(acts, k)] < |b|
    ensures AllMeant(acts) && Meant(acts, k, |acts|).Some?
    ensures b[b[Slot(acts, k)]] - Off(acts, shr, k + 1) == Disp(acts, shr, k)
  {
    hide Off, Slot, ShrinkBy, Meant;
    var t := Meant(acts, k, |acts|).value;
    assert FixedAt(acts, shr, k, b) && FixedAt(acts, shr, t, b);
  }

  /** Pass 3: all of the code is written, and nothing past it. */
  method Encode(acts: seq<Act>, b: seq<int>, code: array<nat>, ghost shr: seq<nat>) returns (ok: bool)
    requires Safe(acts, shr) && Fixed(acts, shr, |acts|, b) && Pointing(acts, b) && Branches(acts)
    requires code.Length == Off(acts, shr, |acts|)
    modifies code
    ensures ok && AllMeant(acts) && |shr| == |acts| && AllEmitted(acts, shr, |acts|, code[..])
  {
    hide *;
    EncodeStarts(acts, shr, code[..]);
    var k, pos, cp: nat := 0, 1, 0;
    while k < |acts|
      invariant 0 <= k <= |acts| && pos == Slot(acts, k) && cp == Off(acts, shr, k)
                && AllEmitted(acts, shr, k, code[..])
    {
      ghost var c := code[..];
      KindStep(acts, shr, k);
      RelKind(acts[k]);
      ShiftDown(acts, shr, k, |acts|);
      ShiftDown(acts, shr, k + 1, |acts|);
      match acts[k] {
        case Byte(x) =>
          code[cp] := x;
          PlainItem(acts, shr, k, code[..]);
          cp := cp + 1;
        case Label(_) =>
          PlainItem(acts, shr, k, code[..]);
          pos := pos + 1;
        case Align(mask) =>
          cp := Nops(code, cp, mask);
          PlainItem(acts, shr, k, code[..]);
          pos := pos + 1;
        case _ =>
          ReadsRight(acts, shr, b, k);
          BranchFacts(acts, shr, k, c);
          var n, shrink := b[pos], b[pos + 1];
          cp := PutBranch(acts, shr, code, k, cp, shrink, b[n] - (cp + 4 - shrink));
          pos := pos + 2;
      }
      EmittedMore(acts, shr, k, c, code[..]);
      k := k + 1;
    }
    ok := cp == code.Length;
  }

  lemma RelKind(act: Act)
    ensures act.Rel() <==> act.RelBack? || act.RelFwd?
  {
  }

  lemma EncodeStarts(acts: seq<Act>, shr: seq<nat>, c: seq<nat>)
    requires Safe(acts, shr)
    ensures |shr| == |acts| && AllMeant(acts) && AllEmitted(acts, shr, 0, c) && Slot(acts, 0) == 1
            && Off(acts, shr, 0) == 0
  {
  }

  /** The three passes in a row (src/sregex/sre_vm_thompson_jit.c:72-97).  The first
      label that is referred to and not there is reported, and nothing is written;
      otherwise the buffer is as large as the link says. */
  method Assemble(acts: seq<Act>, nlabels: nat)
      returns (undefined: Option<nat>, code: array<nat>, ok: bool, ghost shr: seq<nat>)
    requires forall k :: 0 <= k < |acts| && (acts[k].Rel() || acts[k].Label?) ==> acts[k].key < nlabels
    requires Branches(acts)
    ensures undefined.None? <==> AllMeant(acts)
    ensures undefined.Some? ==> Dangling(acts, undefined.value) && forall l: nat :: l < undefined.value ==>
            !Dangling(acts, l)
    ensures undefined.None? ==> Safe(acts, shr) && |shr| == |acts| && code.Length == Off(acts, shr, |acts|)
    ensures undefined.None? ==> ok && AllEmitted(acts, shr, |acts|, code[..])
    ensures undefined.None? ==>
              forall k: nat :: k < |acts| && acts[k].Rel() && ShrinkBy(acts, k) > 0 && shr[k] == 0 ==>
                var t := Meant(acts, k, |acts|).value;
                if t > k then Est(acts, t) - Est(acts, k + 1) > 127
                else Off(acts, shr, t) - Off(acts, shr, k) - 4 + ShrinkBy(acts, k) < -128
  {
    hide Off, Safe, Branches, AllEmitted, Put, Fixed, Pointing, AllMeant, Dangling;
    var b, labels, ofs := PassOne(acts, nlabels);
    undefined := CheckLabels(acts, labels, b);
    if undefined.Some? {
      code, ok, shr := new nat[0], false, [];
    } else {
      var codesize: int;
      b, codesize, shr := Link(acts, labels, b, ofs);
      code := new nat[codesize];
      ok := Encode(acts, b, code, shr);
    }
  }

  /** A number below `range` in two's complement. */
  function Signed(u: nat, range: nat): int {
    if u < range / 2 then u else u - range
  }

  /** Four bytes as the processor reads them. */
  function Long(c: seq<nat>, at: nat): nat
    requires at + 4 <= |c|
  {
    c[at] + 0x100 * c[at + 1] + 0x1_0000 * c[at + 2] + 0x100_0000 * c[at + 3]
  }

  lemma DigitsAre(disp: int)
    ensures Digit(disp, 0) == disp % 256 && Digit(disp, 1) == disp / 256 % 256
    ensures Digit(disp, 2) == disp / 256 / 256 % 256 && Digit(disp, 3) == disp / 256 / 256 / 256 % 256
  {
    assert Digit(disp / 256, 1) == Digit(disp / 256 / 256, 0);
    assert Digit(disp / 256, 2) == Digit(disp / 256 / 256, 1) == Digit(disp / 256 / 256 / 256, 0);
  }

  /** The low half and what is left of it. */
  lemma SignedFrom(disp: int, low: int, rest: int)
    requires disp == low + 0x1_0000_0000 * rest && 0 <= low < 0x1_0000_0000 && -0x8000_0000 <= disp < 0x8000_0000
    ensures disp == if low < 0x8000_0000 then low else low - 0x1_0000_0000
  {
  }

  lemma StoredIs(c: seq<nat>, at: nat, disp: int)
    ensures Stored(c, at, 1, disp) && -0x80 <= disp < 0x80 ==> Signed(c[at], 0x100) == disp
    ensures Stored(c, at, 4, disp) && -0x8000_0000 <= disp < 0x8000_0000 ==>
              Signed(Long(c, at), 0x1_0000_0000) == disp
  {
    hide Digit;
    DigitsAre(disp);
    if Stored(c, at, 1, disp) { assert c[at + 0] == Digit(disp, 0); }
    if Stored(c, at, 4, disp) && -0x8000_0000 <= disp < 0x8000_0000 {
      var d1 := disp / 256;
      var d2 := d1 / 256;
      var d3 := d2 / 256;
      assert c[at + 0] == disp - 256 * d1 && c[at + 1] == d1 - 256 * d2;
      assert c[at + 2] == d2 - 256 * d3 && c[at + 3] == d3 - 256 * (d3 / 256);
      SignedFrom(disp, Long(c, at), d3 / 256);
    }
  }

  /** What the processor adds to the address behind a branch leads to its label. */
  lemma BranchReaches(acts: seq<Act>, shr: seq<nat>, c: seq<nat>, k: nat)
    requires Safe(acts, shr) && AllEmitted(acts, shr, |acts|, c) && k < |acts| && acts[k].Rel()
    ensures var next, aim := Off(acts, shr, k + 1), Off(acts, shr, Meant(acts, k, |acts|).value);
            && next <= |c|
            && if shr[k] > 0 then next >= 1 && next + Signed(c[next - 1], 0x100) == aim
               else next >= 4 && (-0x8000_0000 <= aim - next < 0x8000_0000 ==>
                                    next + Signed(Long(c, next - 4), 0x1_0000_0000) == aim)
  {
    hide Off, Meant, Digit, Stored, ShrinkBy, ShortOpcode, Swallowed, Long, Signed;
    assert Emitted(acts, shr, |acts|, k, c);
    var next := Off(acts, shr, k + 1);
    if shr[k] > 0 {
      StoredIs(c, next - 1, Disp(acts, shr, k));
    } else {
      StoredIs(c, next - 4, Disp(acts, shr, k));
    }
  }

  /** A jump to the next instruction takes two bytes, a conditional one as well. */
  method ShortJumps() returns (jmp: array<nat>, jne: array<nat>)
    ensures jmp[..] == [0xeb, 0] && jne[..] == [0x75, 0]
  {
    hide AllEmitted, Safe, Branches, AllMeant, Dangling;
    ghost var shr;
    var undefined, ok;
    var acts := [Byte(0xe9), RelFwd(0), Label(0)];
    JmpActs(acts);
    undefined, jmp, ok, shr := Assemble(acts, 1);
    JmpCode(acts, shr, jmp[..]);
    acts := [Byte(0x0f), Byte(0x85), RelFwd(0), Label(0)];
    JneActs(acts);
    undefined, jne, ok, shr := Assemble(acts, 1);
    JneCode(acts, shr, jne[..]);
  }

  lemma JmpActs(acts: seq<Act>)
    requires acts == [Byte(0xe9), RelFwd(0), Label(0)]
    ensures Branches(acts) && AllMeant(acts) && Meant(acts, 1, 3) == Some(2) && ShrinkBy(acts, 1) == 3
  {
    assert NextLabel(acts, 2, 3, 0) == Some(2);
    ShrinkByIs(acts, 1);
  }

  lemma JmpCode(acts: seq<Act>, shr: seq<nat>, c: seq<nat>)
    requires acts == [Byte(0xe9), RelFwd(0), Label(0)] && Safe(acts, shr) && |c| == Off(acts, shr, 3)
    requires AllEmitted(acts, shr, 3, c) && !(shr[1] == 0 && Est(acts, 2) - Est(acts, 2) <= 127)
    ensures c == [0xeb, 0]
  {
    JmpActs(acts);
    assert shr[1] == 3;
    assert Off(acts, shr, 1) == 1 && Off(acts, shr, 2) == 2 == Off(acts, shr, 3);
    assert Disp(acts, shr, 1) == 0 && Emitted(acts, shr, 3, 1, c);
    assert c[1] == Digit(0, 0) == 0 && c[0] == ShortOpcode(acts, shr, 1) == 0xeb by {
      assert c[1 + 0] == Digit(Disp(acts, shr, 1), 0);
    }
  }

  lemma JneActs(acts: seq<Act>)
    requires acts == [Byte(0x0f), Byte(0x85), RelFwd(0), Label(0)]
    ensures Branches(acts) && AllMeant(acts) && Meant(acts, 2, 4) == Some(3) && ShrinkBy(acts, 2) == 4
  {
    assert NextLabel(acts, 3, 4, 0) == Some(3);
    ShrinkByIs(acts, 2);
  }

  lemma JneCode(acts: seq<Act>, shr: seq<nat>, c: seq<nat>)
    requires acts == [Byte(0x0f), Byte(0x85), RelFwd(0), Label(0)] && Safe(acts, shr) && |c| == Off(acts, shr, 4)
    requires AllEmitted(acts, shr, 4, c) && !(shr[2] == 0 && Est(acts, 3) - Est(acts, 3) <= 127)
    ensures c == [0x75, 0]
  {
    JneActs(acts);
    assert shr[2] == 4;
    assert Off(acts, shr, 1) == 1 && Off(acts, shr, 2) == 2;
    assert Off(acts, shr, 3) == 2 && Off(acts, shr, 4) == 2;
    assert Disp(acts, shr, 2) == 0 && Emitted(acts, shr, 4, 2, c);
    assert c[1] == Digit(0, 0) == 0 && c[0] == ShortOpcode(acts, shr, 2) == 0x75 by {
      assert c[1 + 0] == Digit(Disp(acts, shr, 2), 0);
    }
  }
}
