/** Reference-counted capture vectors that are copied on write
    (src/sregex/sre_capture.c, src/sregex/sre_capture.h).

    Many threads may hold one capture.  Its count is the number of holders, together
    with those that have dropped it without giving their holding back.  A capture whose
    count falls to 0 goes on the free list, except where the count is taken down without
    a look at the list: then it is gone. */
module Captures {
  import opened PikeMachine

  class Capture {
    var ref: nat
    var id: nat
    var vector: seq<int>

    constructor (vector: seq<int>)
      ensures ref == 1 && id == 0 && this.vector == vector
    {
      this.ref := 1;
      this.id := 0;
      this.vector := vector;
    }
  }

  /** `m` says exactly how often each capture is held. */
  ghost predicate Counted(all: set<Capture>, m: multiset<Capture>)
    reads all`ref
  {
    && (forall c: Capture :: c in m ==> c in all)
    && (forall c: Capture :: c in all ==> c.ref == m[c])
  }

  /** What has no holder is free, once, or gone. */
  ghost predicate Freed(all: set<Capture>, free: seq<Capture>, gone: set<Capture>)
    reads all`ref
  {
    && (forall c :: c in free ==> c in all && c !in gone)
    && gone <= all
    && (forall c :: c in all ==> (c.ref == 0 <==> c in free || c in gone))
    && (forall j, k :: 0 <= j < k < |free| ==> free[j] != free[k])
  }

  ghost predicate Sized(all: set<Capture>, slots: nat)
    reads all`vector
  {
    forall c :: c in all ==> |c.vector| == slots
  }

  /** The captures of a context: `free` heads the list of those to reuse. */
  class Store {
    const slots: nat
    var free: seq<Capture>
    ghost var all: set<Capture>
    ghost var lost: multiset<Capture>   // holdings dropped without being given back
    ghost var gone: set<Capture>        // neither held nor free

    ghost predicate Valid()
      reads this`free, this`all, this`gone, all`ref, all`vector
    {
      Freed(all, free, gone) && Sized(all, slots)
    }

    /** The holders are those of `m` and the lost ones. */
    ghost predicate Counts(m: multiset<Capture>)
      reads this`all, this`lost, all`ref
    {
      Counted(all, m + lost)
    }

    constructor (slots: nat)
      ensures Valid() && Counts(multiset{}) && this.slots == slots && all == {} && free == []
      ensures lost == multiset{} && gone == {}
    {
      this.slots := slots;
      free, all, lost, gone := [], {}, multiset{}, {};
    }

    lemma HeldHere(m: multiset<Capture>, c: Capture)
      requires Counts(m + multiset{c})
      ensures c in all && c.ref > 0 && c.ref == m[c] + lost[c] + 1
    {
      assert c in m + multiset{c} + lost;
    }

    lemma NotHeld(m: multiset<Capture>, c: Capture)
      requires Counts(m) && c in all && c.ref == 0
      ensures c !in m && c !in lost
    {
      assert (m + lost)[c] == 0;
    }

    /** A capture that nobody holds yet: the first free one, or a new one. */
    method Create(clear: bool, ghost held: multiset<Capture>) returns (c: Capture)
      requires Valid() && Counts(held)
      modifies this, all
      ensures Valid() && Counts(held + multiset{c}) && c !in held && c !in lost && c.ref == 1
      ensures clear ==> c.vector == Blank(slots)
      ensures !clear && old(free) != [] ==> c.vector == old(free[0].vector)
      ensures if old(free) != [] then c == old(free)[0] && free == old(free)[1..] && all == old(all)
              else fresh(c) && free == [] && all == old(all) + {c}
      ensures lost == old(lost) && gone == old(gone)
      ensures forall d :: d in old(all) && d != c ==>
                d.ref == old(d.ref) && d.vector == old(d.vector) && d.id == old(d.id)
    {
      if free != [] {
        c := free[0];
        assert c in free;
        NotHeld(held, c);
        free := free[1..];
        c.ref := 1;
        if clear { c.vector := Blank(slots); }
      } else {
        c := new Capture(Blank(slots));
        all := all + {c};
      }
    }

    /** Writes one slot: in place when `cap` has a single holder, else in a copy,
        so nobody else's captures change. */
    method Update(cap: Capture, group: nat, pos: int, ghost held: multiset<Capture>) returns (c: Capture)
      requires Valid() && Counts(held + multiset{cap}) && group < slots
      modifies this, all
      ensures Valid() && Counts(held + multiset{c}) && c !in held && c.ref == 1
      ensures c.vector == old(cap.vector)[group := pos]
      ensures old(cap.ref) == 1 ==> c == cap && free == old(free) && all == old(all)
      ensures old(cap.ref) > 1 ==> c != cap && cap.ref == old(cap.ref) - 1 && cap.vector == old(cap.vector)
      ensures old(cap.ref) > 1 ==>
                if old(free) != [] then c == old(free)[0] && free == old(free)[1..] && all == old(all)
                else fresh(c) && free == [] && all == old(all) + {c}
      ensures lost == old(lost) && gone == old(gone) && old(all) <= all && fresh(all - old(all))
      ensures forall d :: d in old(all) && d != c && d != cap ==>
                d.ref == old(d.ref) && d.vector == old(d.vector) && d.id == old(d.id)
      ensures forall d :: d in held ==> d.vector == old(d.vector) && d.id == old(d.id)
    {
      HeldHere(held, cap);
      if cap.ref > 1 {
        c := Copy(cap, group, pos, held);
      } else {
        cap.vector := cap.vector[group := pos];
        c := cap;
      }
    }

    /** A copy for one of several holders, with one slot written. */
    method Copy(cap: Capture, group: nat, pos: int, ghost held: multiset<Capture>) returns (c: Capture)
      requires Valid() && Counts(held + multiset{cap}) && group < slots && cap in all && cap.ref > 1
      modifies this, all
      ensures Valid() && Counts(held + multiset{c}) && c !in held && c.ref == 1
              && c.vector == old(cap.vector)[group := pos]
      ensures c != cap && cap.ref == old(cap.ref) - 1 && cap.vector == old(cap.vector) && cap.id == old(cap.id)
      ensures if old(free) != [] then c == old(free)[0] && free == old(free)[1..] && all == old(all)
              else fresh(c) && free == [] && all == old(all) + {c}
      ensures lost == old(lost) && gone == old(gone)
      ensures forall d :: d in old(all) && d != c && d != cap ==>
                d.ref == old(d.ref) && d.vector == old(d.vector) && d.id == old(d.id)
    {
      hide Freed;
      var vector := cap.vector;
      c := Create(false, held + multiset{cap});
      c.vector := vector[group := pos];
      assert held + multiset{cap} + multiset{c} == held + multiset{c} + multiset{cap};
      Unshare(cap, held + multiset{c});
    }

    /** One more holder. */
    method Share(cap: Capture, ghost held: multiset<Capture>)
      requires Valid() && Counts(held + multiset{cap})
      modifies cap`ref
      ensures Valid() && Counts(held + multiset{cap} + multiset{cap}) && cap.ref == old(cap.ref) + 1
    {
      HeldHere(held, cap);
      cap.ref := cap.ref + 1;
    }

    /** One holder less, without a look at the free list: the last one leaves a capture
        that is gone. */
    method Unshare(cap: Capture, ghost held: multiset<Capture>)
      requires Valid() && Counts(held + multiset{cap})
      modifies cap`ref, this`gone
      ensures Valid() && Counts(held) && cap.ref == old(cap.ref) - 1
      ensures gone == old(gone) + if old(cap.ref) == 1 then {cap} else {}
    {
      HeldHere(held, cap);
      cap.ref := cap.ref - 1;
      if cap.ref == 0 { gone := gone + {cap}; }
    }

    /** Gives one holding back; the last one frees the capture. */
    method DecrRef(cap: Capture, ghost held: multiset<Capture>)
      requires Valid() && Counts(held + multiset{cap})
      modifies cap`ref, this`free
      ensures Valid() && Counts(held) && cap.ref == old(cap.ref) - 1
      ensures free == (if old(cap.ref) == 1 then [cap] else []) + old(free)
    {
      HeldHere(held, cap);
      cap.ref := cap.ref - 1;
      if cap.ref == 0 { free := [cap] + free; }
    }

    /** A holding is dropped and not given back. */
    ghost method Lose(cap: Capture, held: multiset<Capture>)
      requires Valid() && Counts(held + multiset{cap})
      modifies this`lost
      ensures Valid() && Counts(held) && lost == old(lost) + multiset{cap}
    {
      lost := lost + multiset{cap};
      assert held + multiset{cap} + old(lost) == held + lost;
    }
  }

  /** What is created is reused once it is given back. */
  method GivenBack(slots: nat) returns (first: Capture, second: Capture)
    ensures second == first && first.ref == 1
  {
    var store := new Store(slots);
    first := store.Create(true, multiset{});
    store.DecrRef(first, multiset{});
    second := store.Create(true, multiset{});
  }

  /** What add_thread does at a SPLIT whose first arm is a SAVE and a MATCH, for captures
      with a single holder (src/sregex/sre_vm_pike.c:798-812): they are copied, and then
      neither held nor free. */
  method GoneForGood(slots: nat, group: nat, pos: int) returns (store: Store, captures: Capture, copy: Capture)
    requires group < slots
    ensures captures in store.all && captures.ref == 0 && captures !in store.free && copy != captures && copy.ref == 1
  {
    hide *;
    store := new Store(slots);
    captures := store.Create(true, multiset{});
    store.Share(captures, multiset{});
    assert multiset{} + multiset{captures} == multiset{captures};
    copy := store.Update(captures, group, pos, multiset{captures});
    assert multiset{captures} + multiset{copy} == multiset{copy} + multiset{captures};
    store.Unshare(captures, multiset{copy});
  }
}
