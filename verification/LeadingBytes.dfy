/** The leading-bytes analysis of a compiled program
    (src/sregex/sre_regex_compiler.c:123-241): which instructions can consume the
    first byte of a match, or that no such list exists. */
module LeadingBytes {
  import opened Regexes
  import opened Bytecode
  import opened Programs
  import opened Finite
  import opened Thompson
  import opened PikeMachine

  /** SRE_OK, SRE_DONE when a match can be empty, SRE_DECLINED when a dot can come first. */
  datatype Outcome = Collected | CanBeEmpty | AnyByte

  /** `list` holds the indices found so far. */
  datatype Lead = Lead(visited: set<nat>, list: seq<nat>, rc: Outcome)

  /** A CHAR that is listed already is not listed again. */
  predicate Repeats(code: Code, list: seq<nat>, pc: nat) {
    && pc < |code| && code[pc].Char?
    && exists k :: 0 <= k < |list| && list[k] < |code| && code[list[k]] == code[pc]
  }

  /** Where JMP, SAVE and assertions go on; every assertion is taken to hold. */
  function Follow(inst: Inst, pc: nat): nat {
    if inst.Jmp? then inst.x else pc + 1
  }

  /** The recursive helper: instruction 1, the dot of the search loop, is skipped. */
  function Collect(code: Code, visited: set<nat>, list: seq<nat>, pc: nat): (r: Lead)
    ensures visited <= r.visited && list <= r.list
    decreases UpTo(|code|) - visited
  {
    if pc >= |code| || pc in visited || pc == 1 then Lead(visited, list, Collected)
    else
      var seen := visited + {pc};
      if code[pc].Split? then
        var l := Collect(code, seen, list, code[pc].x);
        if l.rc != Collected then l else Collect(code, l.visited, l.list, code[pc].y)
      else if code[pc].Match? then Lead(seen, list, CanBeEmpty)
      else if code[pc].Any? then Lead(seen, list, AnyByte)
      else if code[pc].Consuming() then Lead(seen, if Repeats(code, list, pc) then list else list + [pc], Collected)
      else Collect(code, seen, list, Follow(code[pc], pc))
  }

  /** The list the program keeps, None when a match can be empty, when a dot can
      come first, or when nothing was found. */
  function LeadingOf(code: Code): Option<seq<nat>> {
    var r := Collect(code, {}, [], 0);
    if r.rc == Collected && r.list != [] then Some(r.list) else None
  }

  /** The byte test of the scan: some listed instruction accepts the byte. */
  predicate Hits(code: Code, lead: seq<nat>, c: Byte) {
    exists k :: 0 <= k < |lead| && lead[k] < |code| && code[lead[k]].Accepts(c)
  }

  /** `vs` is closed under every non-consuming move, passed assertions included,
      except into the dot of the search loop; all that consumes in it is covered
      by the list, and it holds no MATCH and no other dot. */
  ghost predicate Covers(code: Code, vs: set<nat>, done: set<nat>, lead: seq<nat>) {
    && (forall v: nat, t: nat :: v in vs && v !in done && v < |code| && !code[v].Consuming() && Target(code[v], v, t)
                                 && t < |code| ==>
          t in vs || t == 1)
    && (forall v: nat :: v in vs && v !in done && v < |code| ==>
          && !code[v].Match? && v != 1
          && (code[v].Consuming() ==> forall c: Byte :: code[v].Accepts(c) ==> Hits(code, lead, c)))
  }

  /** The chain of instructions found so far. */
  class ByteChain {
    var list: seq<nat>

    constructor ()
      ensures list == []
    {
      list := [];
    }
  }

  lemma CollectHere(code: Code, visited: set<nat>, list: seq<nat>, pc: nat)
    requires pc < |code|
    ensures var r, seen := Collect(code, visited, list, pc), visited + {pc};
            if pc in visited || pc == 1 then r == Lead(visited, list, Collected)
            else match code[pc]
              case Split(x, y) =>
                var l := Collect(code, seen, list, x);
                r == if l.rc != Collected then l else Collect(code, l.visited, l.list, y)
              case Jmp(x) => r == Collect(code, seen, list, x)
              case Save(_) => r == Collect(code, seen, list, pc + 1)
              case Look(_) => r == Collect(code, seen, list, pc + 1)
              case Match(_) => r == Lead(seen, list, CanBeEmpty)
              case Any => r == Lead(seen, list, AnyByte)
              case _ => r == Lead(seen, if Repeats(code, list, pc) then list else list + [pc], Collected)
    ensures code[pc].Save? || code[pc].Look? ==>
            Collect(code, visited + {pc}, list, |code|) == Lead(visited + {pc}, list, Collected)
  {
  }

  lemma LeadTargets(code: Code, pc: nat)
    requires WellTargeted(code) && Live(code, pc)
    ensures pc < |code|
    ensures code[pc].Split? ==> Live(code, code[pc].x) && Live(code, code[pc].y)
    ensures code[pc].Jmp? ==> Live(code, code[pc].x)
    ensures code[pc].Save? || code[pc].Look? ==> Live(code, pc + 1)
  {
    if code[pc].Split? { assert Target(code[pc], pc, code[pc].x) && Target(code[pc], pc, code[pc].y); }
    if code[pc].Jmp? { assert Target(code[pc], pc, code[pc].x); }
    if code[pc].Save? || code[pc].Look? { assert Target(code[pc], pc, pc + 1); }
  }

  /** Puts an instruction on the chain, unless it is a CHAR that is there already. */
  method Append(code: Code, chain: ByteChain, pc: nat)
    requires pc < |code| && forall k :: 0 <= k < |chain.list| ==> chain.list[k] < |code|
    modifies chain
    ensures chain.list == if Repeats(code, old(chain.list), pc) then old(chain.list) else old(chain.list) + [pc]
  {
    var k := 0;
    while k < |chain.list|
      invariant 0 <= k <= |chain.list| && chain.list == old(chain.list)
      invariant forall j :: 0 <= j < k ==> !(code[pc].Char? && code[chain.list[j]] == code[pc])
    {
      var inst := code[chain.list[k]];
      if inst.Char? && code[pc].Char? && inst.ch == code[pc].ch { return; }
      k := k + 1;
    }
    chain.list := chain.list + [pc];
  }

  /** The helper as it runs: tags stand for the visited set. */
  method CollectLeading(code: Code, tags: array<nat>, tag: nat, chain: ByteChain, pc: nat) returns (rc: Outcome)
    requires WellTargeted(code) && tags.Length == |code| && Live(code, pc)
    requires forall k :: 0 <= k < |chain.list| ==> chain.list[k] < |code|
    modifies tags, chain
    ensures Lead(Stamped(tags[..], tag), chain.list, rc) ==
            Collect(code, old(Stamped(tags[..], tag)), old(chain.list), pc)
    ensures forall k :: 0 <= k < |chain.list| ==> chain.list[k] < |code|
    ensures forall k :: 0 <= k < |code| ==> tags[k] == old(tags[k]) || tags[k] == tag
    decreases UpTo(|code|) - Stamped(tags[..], tag)
  {
    hide *;
    LeadTargets(code, pc);
    ghost var visited := Stamped(tags[..], tag);
    CollectHere(code, visited, chain.list, pc);
    Marking(tags[..], tag, pc);
    if tags[pc] == tag || pc == 1 { return Collected; }
    tags[pc] := tag;
    assert tags[..] == old(tags[..])[pc := tag];
    match code[pc]
    case Split(x, y) =>
      rc := CollectLeading(code, tags, tag, chain, x);
      if rc != Collected { return; }
      rc := CollectLeading(code, tags, tag, chain, y);
    case Jmp(x) => rc := CollectLeading(code, tags, tag, chain, x);
    case Save(_) =>
      if pc + 1 == |code| { return Collected; }
      rc := CollectLeading(code, tags, tag, chain, pc + 1);
    case Look(_) =>
      if pc + 1 == |code| { return Collected; }
      rc := CollectLeading(code, tags, tag, chain, pc + 1);
    case Match(_) => rc := CanBeEmpty;
    case Any => rc := AnyByte;
    case _ =>
      Append(code, chain, pc);
      rc := Collected;
  }

  /** The list a program is created with. */
  method GetLeadingBytes(code: Code, tags: array<nat>, tag: nat) returns (lead: Option<seq<nat>>)
    requires WellTargeted(code) && tags.Length == |code| && forall k :: 0 <= k < |code| ==> tags[k] < tag
    modifies tags
    ensures lead == LeadingOf(code)
    ensures lead.Some? ==> forall k :: 0 <= k < |lead.value| ==> lead.value[k] < |code|
    ensures forall k :: 0 <= k < |code| ==> tags[k] <= tag
  {
    hide Collect, WellTargeted;
    assert Live(code, 0) by { CodeStarts(code); }
    var chain := new ByteChain();
    assert Stamped(tags[..], tag) == {};
    var rc := CollectLeading(code, tags, tag, chain, 0);
    lead := if rc == Collected && chain.list != [] then Some(chain.list) else None;
  }

  lemma CodeStarts(code: Code)
    requires WellTargeted(code)
    ensures Live(code, 0)
  {
  }

  lemma HitsMore(code: Code, lead: seq<nat>, lead': seq<nat>, c: Byte)
    requires lead <= lead' && Hits(code, lead, c)
    ensures Hits(code, lead', c)
  {
    var k :| 0 <= k < |lead| && lead[k] < |code| && code[lead[k]].Accepts(c);
    assert lead'[k] == lead[k];
  }

  lemma CoversMore(code: Code, vs: set<nat>, done: set<nat>, lead: seq<nat>, vs': set<nat>, lead': seq<nat>)
    requires Covers(code, vs, done, lead) && vs <= vs' && lead <= lead' && Covers(code, vs', vs, lead')
    ensures Covers(code, vs', done, lead')
  {
    forall v: nat | v in vs && v !in done && v < |code| && code[v].Consuming()
      ensures forall c: Byte :: code[v].Accepts(c) ==> Hits(code, lead', c)
    {
      forall c: Byte | code[v].Accepts(c) ensures Hits(code, lead', c) { HitsMore(code, lead, lead', c); }
    }
  }

  /** When the analysis succeeds, what it visited is covered by what it listed. */
  lemma {:induction false} CollectCovers(code: Code, visited: set<nat>, list: seq<nat>, pc: nat)
    ensures var r := Collect(code, visited, list, pc);
            r.rc == Collected ==> Covers(code, r.visited, visited, r.list)
                                  && (pc < |code| && pc != 1 ==> pc in r.visited)
    decreases UpTo(|code|) - visited
  {
    var r := Collect(code, visited, list, pc);
    hide Covers, Hits, Repeats;
    CoversNothing(code, visited, list);
    if pc < |code| && pc !in visited && pc != 1 {
      var seen := visited + {pc};
      if code[pc].Split? {
        CollectCovers(code, seen, list, code[pc].x);
        var l := Collect(code, seen, list, code[pc].x);
        if l.rc == Collected {
          CollectCovers(code, l.visited, l.list, code[pc].y);
          if r.rc == Collected {
            CoversMore(code, l.visited, seen, l.list, r.visited, r.list);
            CoversUp(code, visited, pc, r.visited, r.list);
          }
        }
      } else if code[pc].Consuming() {
        if !code[pc].Any? { CoversListed(code, visited, list, pc); }
      } else if !code[pc].Match? {
        CollectCovers(code, seen, list, Follow(code[pc], pc));
        if r.rc == Collected { CoversUp(code, visited, pc, r.visited, r.list); }
      }
    }
  }

  lemma CoversNothing(code: Code, visited: set<nat>, list: seq<nat>)
    ensures Covers(code, visited, visited, list)
  {
  }

  lemma CoversListed(code: Code, visited: set<nat>, list: seq<nat>, pc: nat)
    requires pc < |code| && pc != 1 && code[pc].Consuming()
    ensures Covers(code, visited + {pc}, visited, if Repeats(code, list, pc) then list else list + [pc])
  {
    var list' := if Repeats(code, list, pc) then list else list + [pc];
    forall c: Byte | code[pc].Accepts(c) ensures Hits(code, list', c) {
      if Repeats(code, list, pc) {
        var k :| 0 <= k < |list| && list[k] < |code| && code[list[k]] == code[pc];
        assert code[list'[k]].Accepts(c);
      } else {
        assert code[list'[|list|]].Accepts(c);
      }
    }
  }

  lemma CoversUp(code: Code, visited: set<nat>, pc: nat, vs: set<nat>, lead: seq<nat>)
    requires pc < |code| && pc != 1 && !code[pc].Consuming() && !code[pc].Match?
    requires visited + {pc} <= vs && Covers(code, vs, visited + {pc}, lead)
    requires forall t: nat :: Target(code[pc], pc, t) && t < |code| ==> t in vs || t == 1
    ensures Covers(code, vs, visited, lead)
  {
  }

  /** The promise of a leading list: everything reachable from the start without
      consuming, the dot of the search loop apart, consumes only listed bytes, and
      no MATCH is among it. */
  ghost predicate LeadsAll(code: Code, lead: seq<nat>) {
    exists vs: set<nat> :: 0 in vs && Covers(code, vs, {}, lead)
  }

  lemma LeadingListCovers(code: Code)
    requires |code| > 0 && LeadingOf(code).Some?
    ensures LeadsAll(code, LeadingOf(code).value)
  {
    CollectCovers(code, {}, [], 0);
    var vs := Collect(code, {}, [], 0).visited;
    assert 0 in vs && Covers(code, vs, {}, LeadingOf(code).value);
  }

  predicate Hop(code: Code, v: nat, t: nat) {
    v < |code| && !code[v].Consuming() && Target(code[v], v, t) && t != 1
  }

  /** Steps from the start of the program that consume nothing and do not enter the
      dot of the search loop; every assertion is taken to hold. */
  ghost predicate FromStart(code: Code, path: seq<nat>) {
    && path != [] && path[0] == 0
    && forall i :: 0 < i < |path| ==> Hop(code, path[i - 1], path[i])
  }

  /** Nothing need be consumed before `pc`. */
  ghost predicate ComesFirst(code: Code, pc: nat) {
    pc < |code| && exists path: seq<nat> :: FromStart(code, path) && path[|path| - 1] == pc
  }

  ghost predicate EmptyFirst(code: Code) {
    exists v: nat :: ComesFirst(code, v) && code[v].Match?
  }

  ghost predicate DotFirst(code: Code) {
    exists v: nat :: ComesFirst(code, v) && code[v].Any?
  }

  /** The list holds an instruction that reads the same as the one at `v`. */
  predicate Noted(code: Code, list: seq<nat>, v: nat) {
    v < |code| && exists k :: 0 <= k < |list| && list[k] < |code| && code[list[k]] == code[v]
  }

  lemma FirstStep(code: Code, v: nat, t: nat)
    requires ComesFirst(code, v) && !code[v].Consuming() && Target(code[v], v, t) && t < |code| && t != 1
    ensures ComesFirst(code, t)
  {
    hide Target;
    var path: seq<nat> :| FromStart(code, path) && path[|path| - 1] == v;
    var more := path + [t];
    forall i | 0 < i < |more| ensures Hop(code, more[i - 1], more[i]) {
      if i < |path| { assert Hop(code, path[i - 1], path[i]); }
    }
    assert FromStart(code, more) && more[|more| - 1] == t;
  }

  lemma NotedMore(code: Code, list: seq<nat>, list': seq<nat>, v: nat)
    requires Noted(code, list, v) && list <= list'
    ensures Noted(code, list', v)
  {
    var k :| 0 <= k < |list| && list[k] < |code| && code[list[k]] == code[v];
    assert list'[k] == list[k];
  }

  /** Comes first and consumes, but not as a dot. */
  ghost predicate Wanted(code: Code, pc: nat) {
    ComesFirst(code, pc) && code[pc].Consuming() && !code[pc].Any?
  }

  /** What the call visits and consumes is noted, and all it lists comes first. */
  ghost predicate Finds(code: Code, before: set<nat>, from: nat, r: Lead) {
    && (r.rc == CanBeEmpty ==> EmptyFirst(code)) && (r.rc == AnyByte ==> DotFirst(code))
    && from <= |r.list|
    && (forall k :: from <= k < |r.list| ==> Wanted(code, r.list[k]))
    && (r.rc == Collected ==>
          forall v: nat :: v in r.visited && v !in before && v < |code| && code[v].Consuming() ==>
              Noted(code, r.list, v))
  }

  lemma FindsTwice(code: Code, before: set<nat>, from: nat, l: Lead, r: Lead)
    requires Finds(code, before, from, l) && Finds(code, l.visited, |l.list|, r) && l.list <= r.list
             && l.rc == Collected
    ensures Finds(code, before, from, r)
  {
    hide ComesFirst, EmptyFirst, DotFirst, Noted, Wanted;
    forall k | from <= k < |r.list| ensures Wanted(code, r.list[k]) {
      if k < |l.list| { assert r.list[k] == l.list[k]; }
    }
    if r.rc == Collected {
      forall v: nat | v in r.visited && v !in before && v < |code| && code[v].Consuming()
        ensures Noted(code, r.list, v) {
        if v in l.visited { NotedMore(code, l.list, r.list, v); }
      }
    }
  }

  lemma FindsUp(code: Code, before: set<nat>, from: nat, pc: nat, r: Lead)
    requires Finds(code, before + {pc}, from, r) && pc < |code| && !code[pc].Consuming()
    ensures Finds(code, before, from, r)
  {
    hide ComesFirst, EmptyFirst, DotFirst, Noted, Wanted;
  }

  lemma FindsNothing(code: Code, visited: set<nat>, list: seq<nat>)
    ensures Finds(code, visited, |list|, Lead(visited, list, Collected))
  {
  }

  lemma FindsHere(code: Code, visited: set<nat>, list: seq<nat>, pc: nat)
    requires ComesFirst(code, pc)
    ensures code[pc].Match? ==> Finds(code, visited, |list|, Lead(visited + {pc}, list, CanBeEmpty))
    ensures code[pc].Any? ==> Finds(code, visited, |list|, Lead(visited + {pc}, list, AnyByte))
    ensures code[pc].Consuming() && !code[pc].Any? ==>
              Finds(code, visited, |list|,
                    Lead(visited + {pc}, if Repeats(code, list, pc) then list else list + [pc], Collected))
  {
    hide FromStart;
    if code[pc].Consuming() && !code[pc].Any? && !Repeats(code, list, pc) { assert (list + [pc])[|list|] == pc; }
  }

  lemma {:induction false} CollectFinds(code: Code, visited: set<nat>, list: seq<nat>, pc: nat)
    requires pc < |code| && pc != 1 ==> ComesFirst(code, pc)
    ensures Finds(code, visited, |list|, Collect(code, visited, list, pc))
    decreases UpTo(|code|) - visited
  {
    hide Finds, Repeats, ComesFirst;
    var r := Collect(code, visited, list, pc);
    FindsNothing(code, visited, list);
    if pc < |code| && pc !in visited && pc != 1 {
      var seen := visited + {pc};
      FindsHere(code, visited, list, pc);
      forall t: nat | !code[pc].Consuming() && Target(code[pc], pc, t) && t < |code| && t != 1
        ensures ComesFirst(code, t) { FirstStep(code, pc, t); }
      if code[pc].Split? {
        var l := Collect(code, seen, list, code[pc].x);
        CollectFinds(code, seen, list, code[pc].x);
        if l.rc == Collected {
          CollectFinds(code, l.visited, l.list, code[pc].y);
          FindsTwice(code, seen, |list|, l, r);
        }
        FindsUp(code, visited, |list|, pc, r);
      } else if !code[pc].Consuming() && !code[pc].Match? {
        CollectFinds(code, seen, list, Follow(code[pc], pc));
        FindsUp(code, visited, |list|, pc, r);
      }
    }
  }

  lemma {:induction false} FirstCovered(code: Code, vs: set<nat>, lead: seq<nat>, path: seq<nat>, n: nat)
    requires 0 in vs && Covers(code, vs, {}, lead) && FromStart(code, path) && n < |path| && path[n] < |code|
    ensures path[n] in vs
  {
    if n > 0 {
      hide Target;
      assert Hop(code, path[n - 1], path[n]);
      FirstCovered(code, vs, lead, path, n - 1);
    }
  }

  lemma FirstVisited(code: Code, vs: set<nat>, lead: seq<nat>, v: nat)
    requires 0 in vs && Covers(code, vs, {}, lead) && Finds(code, {}, 0, Lead(vs, lead, Collected))
    requires ComesFirst(code, v)
    ensures !code[v].Match? && !code[v].Any? && (code[v].Consuming() ==> Noted(code, lead, v))
  {
    hide EmptyFirst, DotFirst;
    var path: seq<nat> :| FromStart(code, path) && path[|path| - 1] == v;
    FirstCovered(code, vs, lead, path, |path| - 1);
    hide FromStart, Covers;
    assert code[v].Consuming() ==> Noted(code, lead, v);
    assert forall k :: 0 <= k < |lead| ==> Wanted(code, lead[k]);
  }

  /** No CHAR is listed twice. */
  predicate Unrepeated(code: Code, list: seq<nat>) {
    forall j, k :: 0 <= j < k < |list| && list[j] < |code| && list[k] < |code| && code[list[k]].Char? ==>
                     code[list[j]] != code[list[k]]
  }

  lemma {:induction false} CollectUnrepeated(code: Code, visited: set<nat>, list: seq<nat>, pc: nat)
    requires Unrepeated(code, list)
    ensures Unrepeated(code, Collect(code, visited, list, pc).list)
    decreases UpTo(|code|) - visited
  {
    hide Unrepeated, Repeats;
    if pc < |code| && pc !in visited && pc != 1 {
      var seen := visited + {pc};
      if code[pc].Split? {
        CollectUnrepeated(code, seen, list, code[pc].x);
        var l := Collect(code, seen, list, code[pc].x);
        CollectUnrepeated(code, l.visited, l.list, code[pc].y);
      } else if code[pc].Consuming() {
        if !Repeats(code, list, pc) { ListedOnce(code, list, pc); }
      } else if !code[pc].Match? {
        CollectUnrepeated(code, seen, list, Follow(code[pc], pc));
      }
    }
  }

  lemma ListedOnce(code: Code, list: seq<nat>, pc: nat)
    requires Unrepeated(code, list) && pc < |code| && !Repeats(code, list, pc)
    ensures Unrepeated(code, list + [pc])
  {
  }

  /** The analysis, exactly: no list is kept if and only if a MATCH or a dot comes
      first, or nothing that consumes does; a list that is kept holds only
      instructions that come first and consume, and one that reads the same as each
      of these, no CHAR twice. */
  lemma LeadingExactly(code: Code)
    requires |code| > 0
    ensures LeadingOf(code).None? <==> EmptyFirst(code) || DotFirst(code)
                                       || forall v: nat :: ComesFirst(code, v) ==> !code[v].Consuming()
    ensures LeadingOf(code).Some? ==>
              && Unrepeated(code, LeadingOf(code).value)
              && (forall v :: v in LeadingOf(code).value ==> ComesFirst(code, v) && code[v].Consuming())
              && (forall v: nat :: ComesFirst(code, v) && code[v].Consuming() ==> Noted(code, LeadingOf(code).value, v))
  {
    hide Collect, Covers, Noted;
    var r := Collect(code, {}, [], 0);
    assert FromStart(code, [0]) && [0][|[0]| - 1] == 0;
    CollectFinds(code, {}, [], 0);
    CollectUnrepeated(code, {}, [], 0);
    hide FromStart, Unrepeated;
    if r.rc == Collected {
      CollectCovers(code, {}, [], 0);
      forall v: nat | ComesFirst(code, v)
        ensures !code[v].Match? && !code[v].Any? && (code[v].Consuming() ==> Noted(code, r.list, v))
      {
        FirstVisited(code, r.visited, r.list, v);
      }
      if r.list == [] { NoneNoted(code); } else { assert Wanted(code, r.list[0]); }
    }
  }

  lemma NoneNoted(code: Code)
    ensures forall v: nat :: !Noted(code, [], v)
  {
  }
}
