/** The memory pool (src/sregex/sre_palloc.c): blocks in a chain, each handed out
    from the front; `current` is where the search for room starts.

    Addresses are naturals; what the operating system returns for a new block is a
    parameter. */
module Pool {

  const WORD := 8               // SRE_ALIGNMENT
  const BLOCK_ALIGNMENT := 16   // SRE_POOL_ALIGNMENT
  const DATA_HEADER := 32       // sizeof(sre_pool_data_t)
  const POOL_HEADER := 64       // sizeof(sre_pool_t)
  const MAX_SMALL := 4095       // SRE_MAX_ALLOC_FROM_POOL
  const ADDRESSES := 0x1_0000_0000_0000_0000

  /** The first multiple of the word from `a` on. */
  function Align(a: nat): (r: nat)
    ensures a <= r < a + WORD && r % WORD == 0
    ensures a % WORD == 0 ==> r == a
  {
    (a + WORD - 1) / WORD * WORD
  }

  /** The room from `m` to `end` as an unsigned difference: past the end it wraps. */
  function Room(end: nat, m: nat): nat {
    (end - m) % ADDRESSES
  }

  class Block {
    const start: nat
    const end: nat
    var last: nat
    var failed: nat
    var next: Block?

    constructor (start: nat, size: nat, last: nat)
      ensures this.start == start && end == start + size && this.last == last && failed == 0 && next == null
    {
      this.start, this.end, this.last, this.failed, this.next := start, start + size, last, 0, null;
    }
  }

  /** An allocation since the last reset. */
  datatype Alloc = Alloc(addr: nat, size: nat, block: nat)

  ghost predicate Distinct(chain: seq<Block>) {
    forall i, j :: 0 <= i < j < |chain| ==> chain[i] != chain[j]
  }

  /** One block more at the end. */
  ghost predicate Grown(chain: seq<Block>, chain': seq<Block>) {
    |chain'| == |chain| + 1 && chain'[..|chain|] == chain
  }

  ghost predicate Linked(chain: seq<Block>)
    reads chain`next
  {
    forall i :: 0 <= i < |chain| ==> chain[i].next == if i + 1 < |chain| then chain[i + 1] else null
  }

  /** Every block has the size of the first, and no two overlap. */
  ghost predicate LaidOut(chain: seq<Block>, size: nat) {
    && (forall i :: 0 <= i < |chain| ==> chain[i].end == chain[i].start + size < ADDRESSES - WORD
                                         && chain[i].start % BLOCK_ALIGNMENT == 0)
    && (forall i, j :: 0 <= i < j < |chain| ==> chain[i].end <= chain[j].start || chain[j].end <= chain[i].start)
  }

  ghost predicate Filled(chain: seq<Block>)
    reads chain`last
  {
    forall i :: 0 <= i < |chain| ==> chain[i].start + DATA_HEADER <= chain[i].last <= chain[i].end
  }

  /** How often each block was too full. */
  ghost function Failures(chain: seq<Block>): (r: seq<nat>)
    reads chain`failed
    ensures |r| == |chain|
  {
    if chain == [] then [] else Failures(chain[..|chain| - 1]) + [chain[|chain| - 1].failed]
  }

  /** Up to where each block is handed out. */
  ghost function Marks(chain: seq<Block>): (r: seq<nat>)
    reads chain`last
    ensures |r| == |chain|
  {
    if chain == [] then [] else Marks(chain[..|chain| - 1]) + [chain[|chain| - 1].last]
  }

  lemma {:induction false} FailuresAre(chain: seq<Block>)
    ensures |Failures(chain)| == |chain| && forall i :: 0 <= i < |chain| ==> Failures(chain)[i] == chain[i].failed
    decreases |chain|
  {
    if chain != [] { FailuresAre(chain[..|chain| - 1]); }
  }

  lemma {:induction false} MarksAre(chain: seq<Block>)
    ensures |Marks(chain)| == |chain| && forall i :: 0 <= i < |chain| ==> Marks(chain)[i] == chain[i].last
    decreases |chain|
  {
    if chain != [] { MarksAre(chain[..|chain| - 1]); }
  }

  /** The blocks from `from` on, up to the one before `k`, have failed once more; the
      search for room starts right behind the last of them that had failed more than
      four times before, or at `from` as before. */
  predicate WalkedTo(was: seq<nat>, failed: seq<nat>, from: nat, at: nat, k: nat) {
    && |failed| == |was| && k <= |was|
    && (forall i :: 0 <= i < |was| ==> failed[i] == was[i] + if from <= i < k then 1 else 0)
    && (at == from || (from < at <= k && was[at - 1] > 4))
    && (forall i :: at <= i < k ==> was[i] <= 4)
  }

  /** Every block but the last was tried. */
  predicate Walked(was: seq<nat>, failed: seq<nat>, from: nat, at: nat) {
    |was| > 0 && WalkedTo(was, failed, from, at, |was| - 1)
  }

  /** What was handed out lies behind the header and before the fill mark of its
      block, later allocations behind earlier ones. */
  ghost predicate Placed(chain: seq<Block>, live: seq<Alloc>)
    reads chain`last
  {
    && (forall a :: 0 <= a < |live| ==>
          live[a].block < |chain| && chain[live[a].block].start + DATA_HEADER <= live[a].addr
              && live[a].addr + live[a].size <= chain[live[a].block].last)
    && (forall a, b :: 0 <= a < b < |live| && live[a].block == live[b].block ==>
        live[a].addr + live[a].size <= live[b].addr)
  }

  /** Where an allocation would start in a block: on a word for sre_palloc, anywhere
      for sre_pnalloc. */
  function StartIn(last: nat, aligned: bool): nat {
    if aligned then Align(last) else last
  }

  /** The first block from `k` on that passes the test for room. */
  ghost function FirstRoom(chain: seq<Block>, k: nat, n: nat, aligned: bool): (r: nat)
    requires k <= |chain|
    reads chain`last
    ensures k <= r <= |chain|
    ensures r < |chain| ==> Room(chain[r].end, StartIn(chain[r].last, aligned)) >= n
    ensures forall i :: k <= i < r ==> Room(chain[i].end, StartIn(chain[i].last, aligned)) < n
    decreases |chain| - k
  {
    if k == |chain| || Room(chain[k].end, StartIn(chain[k].last, aligned)) >= n then k
        else FirstRoom(chain, k + 1, n, aligned)
  }

  predicate Apart(a: Alloc, b: Alloc) {
    a.addr + a.size <= b.addr || b.addr + b.size <= a.addr
  }

  class Pool {
    const size: nat
    const max: nat
    const head: Block   // the pool itself is its first block
    var current: Block
    ghost var chain: seq<Block>
    ghost var live: seq<Alloc>
    ghost var at: nat   // where `current` is in the chain

    ghost predicate Valid()
      reads this, chain`last, chain`next
    {
      && size > POOL_HEADER && max == (if size - POOL_HEADER < MAX_SMALL then size - POOL_HEADER else MAX_SMALL)
      && Distinct(chain) && at < |chain| && chain[at] == current && chain[0] == head && Linked(chain)
      && LaidOut(chain, size) && Filled(chain) && Placed(chain, live)
    }

    /** Memory for a block that the system may return now. */
    ghost predicate Available(memory: nat)
      reads this
    {
      && memory % BLOCK_ALIGNMENT == 0 && memory + size < ADDRESSES - WORD
      && forall i :: 0 <= i < |chain| ==> chain[i].end <= memory || memory + size <= chain[i].start
    }

    constructor (size: nat, memory: nat)
      requires size > POOL_HEADER && memory % BLOCK_ALIGNMENT == 0 && memory + size < ADDRESSES - WORD
      ensures Valid() && this.size == size && live == [] && fresh(chain) && |chain| == 1
      ensures chain[0].start == memory && chain[0].last == chain[0].start + POOL_HEADER && fresh(chain[0])
    {
      this.size := size;
      this.max := if size - POOL_HEADER < MAX_SMALL then size - POOL_HEADER else MAX_SMALL;
      var first := new Block(memory, size, memory + POOL_HEADER);
      head, current := first, first;
      chain, live, at := [first], [], 0;
    }

    /** Any two allocations since the last reset are apart, and each lies inside a
        block of the chain. */
    lemma LiveApart(a: nat, b: nat)
      requires Valid() && a < b < |live|
      ensures Apart(live[a], live[b])
      ensures live[a].block < |chain| && chain[live[a].block].start + DATA_HEADER <= live[a].addr
              && live[a].addr + live[a].size <= chain[live[a].block].end
    {
      var i, j := live[a].block, live[b].block;
      if i < j {
        assert chain[i].end <= chain[j].start || chain[j].end <= chain[i].start;
      } else if j < i {
        assert chain[j].end <= chain[i].start || chain[i].end <= chain[j].start;
      }
    }

    /** Where a small allocation goes: the first block from `current` on that
        passes the test, else a new block in `memory`. */
    ghost function Target(n: nat, aligned: bool, memory: nat): (addr: nat)
      requires Valid()
      reads this, chain`last, chain`next
    {
      var k := FirstRoom(chain, at, n, aligned);
      if k < |chain| then StartIn(chain[k].last, aligned) else Align(memory + DATA_HEADER)
    }

    /** The search of both allocators. */
    method FindRoom(n: nat, aligned: bool) returns (p: Block?, ghost k: nat)
      requires Valid()
      ensures k == FirstRoom(chain, at, n, aligned) && p == if k < |chain| then chain[k] else null
    {
      p, k := current, at;
      while p != null
        invariant at <= k <= |chain| && p == if k < |chain| then chain[k] else null
        invariant FirstRoom(chain, at, n, aligned) == FirstRoom(chain, k, n, aligned)
        decreases |chain| - k
      {
        var m := StartIn(p.last, aligned);
        if Room(p.end, m) >= n { return; }
        p, k := p.next, k + 1;
      }
    }

    /** Moves the fill mark of a block behind the allocation. */
    method HandOut(p: Block, m: nat, n: nat, ghost k: nat)
      requires Valid() && k < |chain| && p == chain[k]
      modifies p`last, this`live
      ensures live == old(live) + [Alloc(m, n, k)] && p.last == m + n
      ensures old(p.last) <= m && m + n <= p.end ==> Valid()
      ensures Marks(chain) == old(Marks(chain))[k := m + n]
    {
      hide Linked, Marks;
      OneOf(k);
      MarksAre(chain);
      p.last := m + n;
      live := live + [Alloc(m, n, k)];
      MarksAre(chain);
    }

    /** sre_palloc and sre_pnalloc for a size up to `max`. */
    method Take(n: nat, aligned: bool, memory: nat) returns (m: nat)
      requires Valid() && n <= max && Available(memory)
      modifies this, chain
      ensures m == old(Target(n, aligned, memory)) && (chain == old(chain) || Grown(old(chain), chain))
      ensures |live| == |old(live)| + 1 && live[..|old(live)|] == old(live) && live[|old(live)|].addr == m
              && live[|old(live)|].size == n
      ensures !aligned || size % WORD == 0 ==> Valid()
      ensures aligned ==> m % WORD == 0
      ensures chain != old(chain) ==> fresh(chain[|old(chain)|])
      ensures var k := old(FirstRoom(chain, at, n, aligned)); k < |old(chain)| ==>
              && chain == old(chain) && at == old(at) && chain[k].last == m + n
              && Marks(chain) == old(Marks(chain))[k := m + n] && Failures(chain) == old(Failures(chain))
      ensures old(FirstRoom(chain, at, n, aligned)) == |old(chain)| ==>
              && Grown(old(chain), chain) && chain[|old(chain)|].last == m + n && chain[|old(chain)|].failed == 0
              && Marks(old(chain)) == old(Marks(chain))
              && Walked(old(Failures(chain)), Failures(old(chain)), old(at), at)
    {
      hide *;
      var p;
      ghost var k;
      p, k := FindRoom(n, aligned);
      TargetIs(n, aligned, memory);
      if p != null {
        m := StartIn(p.last, aligned);
        Fits(k, n, aligned);
        HandOut(p, m, n, k);
        LiveMore(old(live), Alloc(m, n, k));
      } else {
        m := AddBlock(n, memory);
      }
    }

    lemma TargetIs(n: nat, aligned: bool, memory: nat)
      requires Valid()
      ensures var k := FirstRoom(chain, at, n, aligned);
              Target(n, aligned, memory) == if k < |chain| then StartIn(chain[k].last, aligned)
                  else Align(memory + DATA_HEADER)
      ensures aligned ==> forall a: nat :: StartIn(a, aligned) % WORD == 0
      ensures aligned ==> forall a: nat :: Align(a) % WORD == 0
    {
      hide Valid;
    }

    lemma LiveMore(live: seq<Alloc>, alloc: Alloc)
      ensures (live + [alloc])[..|live|] == live
    {
    }

    /** On word-sized pools, and without alignment on all, the test for room is right. */
    lemma Fits(k: nat, n: nat, aligned: bool)
      requires Valid() && k < |chain| && Room(chain[k].end, StartIn(chain[k].last, aligned)) >= n
      ensures var m := StartIn(chain[k].last, aligned);
              chain[k].last <= m && (!aligned || size % WORD == 0 ==> m + n <= chain[k].end)
    {
      var b := chain[k];
      var m := StartIn(b.last, aligned);
      hide Linked, Placed;
      if aligned && size % WORD == 0 { AlignBelow(b.start, size, b.last); }
      if m <= b.end { SmallMod(b.end - m, ADDRESSES); }
    }

    /** Walks to the end of the chain; blocks that failed often are left behind. */
    method WalkToEnd() returns (p: Block, cur: Block, ghost c: nat)
      requires Valid()
      modifies chain`failed
      ensures p == chain[|chain| - 1] && c < |chain| && cur == chain[c]
      ensures Valid() && Walked(old(Failures(chain)), Failures(chain), at, c)
    {
      hide *;
      CurrentThere();
      p, cur := current, current;
      ghost var k, was := at, Failures(chain);
      c := at;
      NoneWalked(was, at);
      while p.next != null
        invariant at <= k < |chain| && p == chain[k] && c < |chain| && cur == chain[c]
        invariant Valid() && WalkedTo(was, Failures(chain), at, c, k)
        decreases |chain| - k
      {
        NextInChain(k);
        ghost var failed := Failures(chain);
        var failures := TooFull(p, k);
        OneWalked(was, failed, Failures(chain), at, c, k);
        if failures > 4 { cur, c := p.next, k + 1; }
        p, k := p.next, k + 1;
      }
      NextInChain(k);
      AllWalked(was, Failures(chain), at, c, k);
    }

    /** One more failure of a block; how many there were before. */
    method TooFull(p: Block, ghost k: nat) returns (failures: nat)
      requires Valid() && k < |chain| && p == chain[k]
      modifies p`failed
      ensures Valid() && |Failures(chain)| == |chain| && failures == old(Failures(chain))[k]
      ensures Failures(chain) == old(Failures(chain))[k := failures + 1]
    {
      OneOf(k);
      hide LaidOut, Filled, Placed, Linked, Distinct, Failures;
      FailuresAre(chain);
      failures := p.failed;
      p.failed := p.failed + 1;
      FailuresAre(chain);
    }

    lemma CurrentThere()
      requires Valid()
      ensures at < |chain| && chain[at] == current && |Failures(chain)| == |chain|
    {
      hide LaidOut, Filled, Placed, Linked, Distinct, Failures;
      FailuresAre(chain);
    }

    lemma HeaderFits(k: nat)
      requires Valid() && k < |chain|
      ensures chain[k].start + POOL_HEADER <= chain[k].end
    {
    }

    lemma OneOf(k: nat)
      requires Valid() && k < |chain|
      ensures forall i :: 0 <= i < |chain| && i != k ==> chain[i] != chain[k]
    {
      hide LaidOut, Filled, Placed, Linked;
    }

    lemma NextInChain(k: nat)
      requires Valid() && k < |chain|
      ensures chain[k].next == if k + 1 < |chain| then chain[k + 1] else null
    {
    }

    /** A new block at the end of the chain. */
    method AddBlock(n: nat, memory: nat) returns (m: nat)
      requires Valid() && n <= max && Available(memory)
      modifies this, chain
      ensures m == Align(memory + DATA_HEADER) && Grown(old(chain), chain) && fresh(chain[|old(chain)|])
      ensures Valid() && |live| == |old(live)| + 1 && live[..|old(live)|] == old(live)
      ensures live[|old(live)|].addr == m && live[|old(live)|].size == n
      ensures var b := chain[|old(chain)|]; b.start == memory && b.last == m + n && b.failed == 0
      ensures Marks(old(chain)) == old(Marks(chain))
      ensures Walked(old(Failures(chain)), Failures(old(chain)), old(at), at)
    {
      hide *;
      AddParts(n, memory);
      m := Align(memory + DATA_HEADER);
      ghost var before, alloc := chain, Alloc(m, n, |chain|);
      var added := new Block(memory, size, m + n);
      var p, cur;
      ghost var c;
      p, cur, c := WalkToEnd();
      AddParts(n, memory);
      LaidOutMore(before, added, size);
      FilledMore(before, added, live, m, n);
      Append(p, added, cur, c, alloc);
      GrownBy(before, added);
    }

    /** A block with its first allocation behind the last block `p`. */
    method Append(p: Block, added: Block, cur: Block, ghost c: nat, ghost alloc: Alloc)
      requires Valid() && p == chain[|chain| - 1] && added !in chain && added.next == null && c < |chain|
               && cur == chain[c]
      requires LaidOut(chain + [added], size) && Filled(chain + [added]) && Placed(chain + [added], live + [alloc])
      modifies this, p`next
      ensures Valid() && chain == old(chain) + [added] && live == old(live) + [alloc] && at == c
      ensures Failures(old(chain)) == old(Failures(chain)) && Marks(old(chain)) == old(Marks(chain))
    {
      hide LaidOut, Filled, Placed, Linked, Distinct;
      LinkLast(p, added);
      Enroll(added, cur, c, alloc);
    }

    /** What is known before a block is added. */
    lemma AddParts(n: nat, memory: nat)
      requires Valid() && n <= max && Available(memory)
      ensures size > POOL_HEADER && max == (if size - POOL_HEADER < MAX_SMALL then size - POOL_HEADER else MAX_SMALL)
      ensures memory % BLOCK_ALIGNMENT == 0 && memory + size < ADDRESSES - WORD
      ensures DATA_HEADER > 0 && Align(memory + DATA_HEADER) == memory + DATA_HEADER
      ensures memory + DATA_HEADER + n <= memory + size
      ensures LaidOut(chain, size) && Filled(chain) && Placed(chain, live) && |chain| > 0 && chain[0] == head
      ensures forall i :: 0 <= i < |chain| ==> chain[i].end <= memory || memory + size <= chain[i].start
    {
      hide LaidOut, Filled, Placed, Linked, Distinct, Align;
      AlignHeader(memory);
    }

    /** The pool takes the new block in. */
    method Enroll(added: Block, cur: Block, ghost c: nat, ghost alloc: Alloc)
      requires size > POOL_HEADER && max == (if size - POOL_HEADER < MAX_SMALL then size - POOL_HEADER else MAX_SMALL)
      requires c < |chain| && cur == chain[c] && chain[0] == head
      requires Distinct(chain + [added]) && Linked(chain + [added]) && LaidOut(chain + [added], size)
      requires Filled(chain + [added]) && Placed(chain + [added], live + [alloc])
      modifies this
      ensures Valid() && chain == old(chain) + [added] && live == old(live) + [alloc] && at == c
    {
      hide Distinct, Linked, LaidOut, Filled, Placed;
      current, at := cur, c;
      chain := chain + [added];
      live := live + [alloc];
    }

    method LinkLast(p: Block, added: Block)
      requires Valid() && p == chain[|chain| - 1] && added !in chain && added.next == null
      modifies p`next
      ensures Linked(chain + [added]) && Distinct(chain + [added])
    {
      hide LaidOut, Filled, Placed;
      p.next := added;
    }

    /** Every block is free again behind its header. */
    method Reset()
      requires Valid()
      modifies this, chain
      ensures Valid() && live == [] && chain == old(chain) && at == old(at)
      ensures forall i :: 0 <= i < |chain| ==> chain[i].last == chain[i].start + POOL_HEADER
      ensures Failures(chain) == old(Failures(chain))
    {
      hide *;
      Forget();
      var p: Block? := head;
      ghost var k := 0;
      while p != null
        invariant k <= |chain| && p == (if k < |chain| then chain[k] else null) && live == [] && chain == old(chain)
                  && Valid() && at == old(at)
        invariant Failures(chain) == old(Failures(chain))
        invariant forall i :: 0 <= i < k ==> chain[i].last == chain[i].start + POOL_HEADER
        decreases |chain| - k
      {
        NextInChain(k);
        ResetBlock(p, k);
        p := p.next;
        k := k + 1;
      }
    }

    method ResetBlock(p: Block, ghost k: nat)
      requires Valid() && k < |chain| && p == chain[k] && live == []
      modifies p`last
      ensures Valid() && p.last == p.start + POOL_HEADER
    {
      hide LaidOut, Linked;
      HeaderFits(k);
      p.last := p.start + POOL_HEADER;
    }

    method Forget()
      requires Valid()
      modifies this`live
      ensures Valid() && live == []
    {
      live := [];
    }
  }

  /** On a pool whose size is no multiple of the word the test for room fails: bytes
      handed out without alignment fill the block, and the next aligned allocation
      starts behind its end. */
  method Overrun(size: nat, memory: nat, other: nat) returns (pool: Pool, m: nat)
    requires size > POOL_HEADER && size % WORD != 0
    requires memory % BLOCK_ALIGNMENT == 0 && memory + size < ADDRESSES - WORD
    requires other % BLOCK_ALIGNMENT == 0 && other + size < ADDRESSES - WORD
             && (memory + size <= other || other + size <= memory)
    ensures fresh(pool) && pool.size == size && |pool.chain| == 1 && m >= pool.chain[0].end
  {
    hide Linked, LaidOut, Filled, Placed, Distinct, Align, Grown, Walked, WalkedTo, Failures, Marks;
    pool := new Pool(size, memory);
    var head := pool.head;
    FirstBounds(pool);
    while head.last < head.end
      invariant pool.Valid() && pool.size == size && pool.chain == [head] && pool.at == 0 && fresh(pool) && fresh(head)
      invariant head.last <= head.end == head.start + size < ADDRESSES - WORD && head.start == memory
      decreases head.end - head.last
    {
      OneByte(pool, other);
    }
    m := BehindEnd(pool, other);
  }

  /** An aligned byte of a full pool of one block. */
  method BehindEnd(pool: Pool, other: nat) returns (m: nat)
    requires pool.Valid() && pool.chain == [pool.head] && pool.at == 0 && pool.Available(other) && pool.size % WORD != 0
    requires var b := pool.head; b.last == b.end == b.start + pool.size < ADDRESSES - WORD
                                 && b.start % BLOCK_ALIGNMENT == 0
    modifies pool, pool.head
    ensures pool.chain == old(pool.chain) && m >= pool.head.end
  {
    hide Linked, LaidOut, Filled, Placed, Distinct, Align, Grown, Walked, WalkedTo, Failures, Marks;
    PastEnd(pool.head.start, pool.size);
    m := pool.Take(1, true, other);
  }

  /** One more byte of a pool of one block that has room. */
  method OneByte(pool: Pool, other: nat)
    requires pool.Valid() && pool.chain == [pool.head] && pool.at == 0 && pool.Available(other)
    requires pool.head.last < pool.head.end < ADDRESSES
    modifies pool, pool.head
    ensures pool.Valid() && pool.chain == [pool.head] && pool.at == 0 && pool.head.last == old(pool.head.last) + 1
  {
    hide Linked, LaidOut, Filled, Placed, Distinct, Align, Grown, Walked, WalkedTo, Failures, Marks;
    SmallMod(pool.head.end - pool.head.last, ADDRESSES);
    var m := pool.Take(1, false, other);
  }

  lemma FirstBounds(pool: Pool)
    requires pool.Valid() && |pool.chain| == 1
    ensures var b := pool.chain[0]; b.last <= b.end == b.start + pool.size < ADDRESSES - WORD && pool.chain == [b]
                                    && pool.at == 0 && pool.head == b
  {
  }

  lemma PastEnd(start: nat, size: nat)
    requires start % BLOCK_ALIGNMENT == 0 && size % WORD != 0 && start + size < ADDRESSES - WORD
    ensures Align(start + size) > start + size && Room(start + size, Align(start + size)) >= 1
  {
    var end, m := start + size, Align(start + size);
    assert (end - m) % ADDRESSES == end - m + ADDRESSES;
  }

  /** What that says, block by block. */
  lemma WalkedMeans(was: seq<nat>, failed: seq<nat>, from: nat, at: nat)
    requires Walked(was, failed, from, at)
    ensures |failed| == |was|
    ensures forall i :: 0 <= i < |was| ==> failed[i] == was[i] + if from <= i < |was| - 1 then 1 else 0
    ensures at == from || (from < at < |was| && was[at - 1] > 4)
    ensures forall i :: at <= i < |was| - 1 ==> was[i] <= 4
  {
  }

  lemma GrownBy(chain: seq<Block>, added: Block)
    ensures Grown(chain, chain + [added])
  {
  }

  lemma NoneWalked(was: seq<nat>, from: nat)
    requires from < |was|
    ensures WalkedTo(was, was, from, from, from)
  {
  }

  lemma OneWalked(was: seq<nat>, failed: seq<nat>, failed': seq<nat>, from: nat, at: nat, k: nat)
    requires WalkedTo(was, failed, from, at, k) && from <= k < |was| && failed' == failed[k := failed[k] + 1]
    ensures failed[k] == was[k] && WalkedTo(was, failed', from, if failed[k] > 4 then k + 1 else at, k + 1)
  {
  }

  lemma AllWalked(was: seq<nat>, failed: seq<nat>, from: nat, at: nat, k: nat)
    requires WalkedTo(was, failed, from, at, k) && k + 1 == |was|
    ensures Walked(was, failed, from, at)
  {
    hide WalkedTo;
  }

  lemma LaidOutMore(chain: seq<Block>, added: Block, size: nat)
    requires LaidOut(chain, size) && added.start % BLOCK_ALIGNMENT == 0
             && added.end == added.start + size < ADDRESSES - WORD
    requires forall i :: 0 <= i < |chain| ==> chain[i].end <= added.start || added.end <= chain[i].start
    ensures LaidOut(chain + [added], size)
  {
  }

  lemma FilledMore(chain: seq<Block>, added: Block, live: seq<Alloc>, m: nat, n: nat)
    requires Filled(chain) && Placed(chain, live) && added.start + DATA_HEADER <= m && added.last == m + n <= added.end
    ensures Filled(chain + [added]) && Placed(chain + [added], live + [Alloc(m, n, |chain|)])
  {
  }

  lemma AlignBelow(start: nat, size: nat, last: nat)
    requires start % BLOCK_ALIGNMENT == 0 && size % WORD == 0 && last <= start + size
    ensures Align(last) <= start + size
  {
  }

  lemma AlignHeader(memory: nat)
    requires memory % BLOCK_ALIGNMENT == 0
    ensures Align(memory + DATA_HEADER) == memory + DATA_HEADER
  {
  }

  lemma SmallMod(a: nat, m: nat)
    requires a < m
    ensures a % m == a
  {
  }
}
