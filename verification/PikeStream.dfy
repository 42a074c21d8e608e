/** The Pike VM as it is called (src/sregex/sre_vm_pike.c:148-689): chunk by chunk,
    with the jump to the next leading byte.  Exec is one call, on values. */
module PikeStream {
  import opened Regexes
  import opened Bytecode
  import opened PikeMachine
  import opened LeadingBytes

  /** What a context keeps between calls: the bytes processed, the current list,
      the pending match and the flag that the start state was seen. */
  datatype Machine = Machine(pos: nat, list: seq<Thread>, matched: Option<Hit>, seen: bool)

  datatype Verdict = Matched(hit: Hit) | Declined | Again(machine: Machine)

  /** The fixed part of a context: `lead` is the program's leading list and `slots`
      the size of a capture vector. */
  datatype Setup = Setup(code: Code, lead: Option<seq<nat>>, slots: nat) {

    /** The list the search starts with at a place. */
    function StartList(at: Place): seq<Thread> {
      Begin(code, at, slots).threads
    }

    /** The instructions recorded as initial states on the first call. */
    function Initial(): seq<Thread> {
      StartList(Place(0, true, true))
    }

    function Fresh(): Machine {
      Machine(0, Initial(), None, true)
    }

    /** As many threads as initially, at the same instructions; the last one is not
        compared. */
    predicate LooksInitial(list: seq<Thread>) {
      && |list| == |Initial()|
      && forall k :: 0 <= k < |list| - 1 ==> list[k].pc == Initial()[k].pc
    }

    /** The next position, from `p` on, of a byte that can start a match. */
    function FirstByte(s: seq<Byte>, p: nat): (q: nat)
      requires p <= |s| && lead.Some?
      ensures p <= q <= |s|
      ensures forall k :: p <= k < q ==> !Hits(code, lead.value, s[k])
      ensures q < |s| ==> Hits(code, lead.value, s[q])
      decreases |s| - p
    {
      if p == |s| || Hits(code, lead.value, s[p]) then p else FirstByte(s, p + 1)
    }

    /** The jump: when the start state was seen and the list looks like the initial
        one, go to the next leading byte and start over there. */
    function Jump(s: seq<Byte>, m: Machine): (r: Machine)
      requires m.pos <= |s|
      ensures m.pos <= r.pos <= |s| && r.matched == m.matched
    {
      if lead.None? || !m.seen then m
      else
        var m1 := m.(seen := false);
        if m.pos == |s| || !LooksInitial(m.list) then m1
        else
          var q := FirstByte(s, m.pos);
          if q > m.pos then Machine(q, StartList(PlaceIn(s, q)), m.matched, true) else m1
    }

    /** The threads run on the byte at the position, or at the end of the stream. */
    function Advance(s: seq<Byte>, m: Machine): Machine
      requires m.pos <= |s|
    {
      var r := Step(code, s, m.pos, m.list);
      Machine(if m.pos < |s| then m.pos + 1 else m.pos, r.threads, OrElse(r.hit, m.matched), m.seen || 0 in r.visited)
    }

    /** The main loop over a chunk that ends where `s` ends. */
    function Feed(s: seq<Byte>, eof: bool, m: Machine): (r: Machine)
      requires m.pos <= |s|
      ensures r.pos <= |s|
      decreases |s| - m.pos
    {
      if !(m.pos < |s| || eof) || m.list == [] then m
      else
        var j := Jump(s, m);
        if j.pos == |s| && m.pos < |s| then j
        else if j.pos == |s| then Advance(s, j)
        else Feed(s, eof, Advance(s, j))
    }

    /** One call. */
    function Exec(s: seq<Byte>, eof: bool, m: Machine): Verdict
      requires m.pos <= |s|
    {
      var r := Feed(s, eof, m);
      if r.matched.Some? && (eof || r.list == []) then Matched(r.matched.value)
      else if eof then Declined
      else Again(r)
    }
  }
}
