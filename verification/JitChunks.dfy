/** The JIT machine and the interpreter beside each other, call by call
    (src/sregex/sre_vm_thompson_x64.h:318-415, src/sregex/sre_vm_thompson.c:63-270).

    The machine looks for a match when it adds a thread, the interpreter when it runs it.
    So the machine may answer first, but by the time the interpreter reads another byte,
    or the end, it gives the same answer. */
module JitChunks {
  import opened Regexes
  import opened Bytecode
  import opened Programs
  import opened Thompson
  import opened ThompsonMatching
  import opened Chunks
  import opened JitGraph
  import opened JitMachine
  import opened JitPrograms

  /** The answers of the calls on the chunks, the last one with eof, up to the first that
      is not AGAIN.  An early answer counts a match that ends where the chunk ends. */
  ghost predicate Answers(code: Code, chunks: seq<seq<Byte>>, rs: seq<Status>, early: bool) {
    0 < |rs| <= |chunks| && forall k: nat :: k < |rs| ==> AnswerAt(code, chunks, rs, k, early)
  }

  ghost predicate AnswerAt(code: Code, chunks: seq<seq<Byte>>, rs: seq<Status>, k: nat, early: bool)
    requires k < |rs| <= |chunks|
  {
    var s, eof := Joined(chunks[..k + 1]), k + 1 == |chunks|;
    && (rs[k] == OK <==> AcceptsBefore(code, s, |s| + if early || eof then 1 else 0))
    && (rs[k] == DECLINED ==> eof) && (rs[k] == AGAIN <==> k + 1 < |rs|)
  }

  /** All calls so far have said AGAIN. */
  ghost predicate Going(code: Code, chunks: seq<seq<Byte>>, k: nat, early: bool) {
    k < |chunks| && forall j: nat :: j < k ==> NotYet(code, chunks, j, early)
  }

  ghost predicate NotYet(code: Code, chunks: seq<seq<Byte>>, j: nat, early: bool) {
    && j < |chunks|
    && var s := Joined(chunks[..j + 1]);
       !AcceptsBefore(code, s, |s| + if early then 1 else 0)
  }

  /** One call more. */
  lemma Called(code: Code, chunks: seq<seq<Byte>>, k: nat, early: bool, r: Status)
    requires Going(code, chunks, k, early)
    requires var s, eof := Joined(chunks[..k + 1]), k + 1 == |chunks|;
             && (r == OK <==> AcceptsBefore(code, s, |s| + if early || eof then 1 else 0))
             && (r == DECLINED ==> eof) && (r == AGAIN ==> !eof)
    ensures r == AGAIN ==> Going(code, chunks, k + 1, early)
    ensures r != AGAIN ==> Answers(code, chunks, seq(k, _ => AGAIN) + [r], early)
  {
    hide AcceptsBefore, Joined;
    if r == AGAIN {
      assert NotYet(code, chunks, k, early);
    } else {
      var rs := seq(k, _ => AGAIN) + [r];
      forall j: nat | j < |rs| ensures AnswerAt(code, chunks, rs, j, early) {
        if j < k { assert NotYet(code, chunks, j, early); }
      }
    }
  }

  method InterpreterCalls(program: Program, chunks: seq<seq<Byte>>) returns (rs: seq<Status>)
    requires program.Valid() && CodeLookAheadFree(program.code) && chunks != []
    modifies program, program.tags
    ensures Answers(program.code, chunks, rs, false)
  {
    hide Accepting, WellTargeted, CodeLookAheadFree, AcceptsBefore, Joined, Front, Thompson.Context.Valid, Going,
        Answers, Program.Valid;
    ghost var code := program.code;
    JoinedNone();
    NothingAccepted(code);
    assert chunks[..0] == [];
    var ctx := new Context(program);
    var k := 0;
    NoneCalled(code, chunks, false);
    while true
      invariant k < |chunks| && Going(code, chunks, k, false)
      invariant ctx.Valid() && ctx.done == Joined(chunks[..k]) && ctx.program == program && program.code == code
      invariant fresh(ctx) && fresh(ctx.current) && fresh(ctx.next) && fresh(ctx.current.threads)
                && fresh(ctx.next.threads)
      decreases |chunks| - k
    {
      var r := ctx.Exec(chunks[k], k + 1 == |chunks|);
      JoinedLast(chunks, k + 1);
      Called(code, chunks, k, false, r);
      if r != AGAIN { return seq(k, _ => AGAIN) + [r]; }
      k := k + 1;
    }
  }

  method MachineCalls(machine: Machine, chunks: seq<seq<Byte>>) returns (rs: seq<Status>)
    requires machine.Valid() && machine.firstBuf && machine.done == [] && chunks != []
    modifies machine, machine.added, machine.current, machine.current.threads, machine.next, machine.next.threads
    ensures Answers(machine.code, chunks, rs, true)
  {
    hide *;
    JoinedNone();
    assert chunks[..0] == [];
    ghost var code, a, b := machine.code, machine.current, machine.next;
    var k := 0;
    NoneCalled(code, chunks, true);
    while true
      invariant k < |chunks| && Going(code, chunks, k, true)
      invariant machine.Valid() && machine.done == Joined(chunks[..k])
      invariant (machine.current == a && machine.next == b) || (machine.current == b && machine.next == a)
      decreases |chunks| - k
    {
      var r := machine.Exec(chunks[k], k + 1 == |chunks|);
      JoinedLast(chunks, k + 1);
      Called(code, chunks, k, true, r);
      if r != AGAIN { return seq(k, _ => AGAIN) + [r]; }
      k := k + 1;
    }
  }

  lemma NoneCalled(code: Code, chunks: seq<seq<Byte>>, early: bool)
    requires chunks != []
    ensures Going(code, chunks, 0, early)
  {
  }

  /** The machine is never later, the last answers are the same, and if the interpreter
      is later then every chunk in between was empty. */
  ghost predicate Agree(code: Code, chunks: seq<seq<Byte>>, jit: seq<Status>, interpreted: seq<Status>) {
    && 0 < |jit| <= |interpreted| <= |chunks| && jit[|jit| - 1] == interpreted[|interpreted| - 1]
    && (|jit| < |interpreted| ==> Joined(chunks[..|interpreted| - 1]) == Joined(chunks[..|jit|]))
    && var s := Joined(chunks);
       jit[|jit| - 1] == if AcceptsBefore(code, s, |s| + 1) then OK else DECLINED
  }

  lemma Later(code: Code, chunks: seq<seq<Byte>>, j: nat, k: nat) returns (rest: seq<Byte>)
    requires CodeLookAheadFree(code) && j <= k <= |chunks|
    ensures Joined(chunks[..k]) == Joined(chunks[..j]) + rest
    ensures var s, s' := Joined(chunks[..j]), Joined(chunks[..k]);
            && (AcceptsBefore(code, s, |s| + 1) ==> AcceptsBefore(code, s', |s'| + 1))
            && (AcceptsBefore(code, s, |s| + 1) && rest != [] ==> AcceptsBefore(code, s', |s'|))
  {
    hide AcceptsBefore, CodeLookAheadFree, Joined;
    assert chunks[..k][..j] == chunks[..j];
    rest := JoinedFrom(chunks[..k], j);
    var s, s' := Joined(chunks[..j]), Joined(chunks[..k]);
    AcceptsPrefix(code, s, rest, |s| + 1);
    if AcceptsBefore(code, s, |s| + 1) {
      More(code, s', |s| + 1, |s'| + 1);
      if rest != [] { More(code, s', |s| + 1, |s'|); }
    }
  }

  lemma AnswerIs(code: Code, chunks: seq<seq<Byte>>, rs: seq<Status>, k: nat, early: bool)
    requires Answers(code, chunks, rs, early) && k < |rs|
    ensures k < |rs| <= |chunks|
    ensures var s, eof := Joined(chunks[..k + 1]), k + 1 == |chunks|;
            && (rs[k] == OK <==> AcceptsBefore(code, s, |s| + if early || eof then 1 else 0))
            && (rs[k] == DECLINED ==> eof) && (rs[k] == AGAIN <==> k + 1 < |rs|)
  {
    hide AcceptsBefore, Joined;
    assert AnswerAt(code, chunks, rs, k, early);
  }

  lemma Compare(code: Code, chunks: seq<seq<Byte>>, jit: seq<Status>, interpreted: seq<Status>)
    requires CodeLookAheadFree(code) && Answers(code, chunks, jit, true) && Answers(code, chunks, interpreted, false)
    ensures Agree(code, chunks, jit, interpreted)
  {
    hide AcceptsBefore, CodeLookAheadFree, Joined, Answers;
    NotEmpty(code, chunks, jit, true);
    NotEmpty(code, chunks, interpreted, false);
    var j, i := |jit| - 1, |interpreted| - 1;
    AnswerIs(code, chunks, jit, j, true);
    AnswerIs(code, chunks, interpreted, i, false);
    if i < j {
      AnswerIs(code, chunks, jit, i, true);
      var s := Joined(chunks[..i + 1]);
      More(code, s, |s|, |s| + 1);
    } else {
      var rest := Later(code, chunks, j + 1, i + 1);
      if j < i {
        AnswerIs(code, chunks, interpreted, i - 1, false);
        rest := Later(code, chunks, j + 1, i);
      }
    }
    assert chunks[..|chunks|] == chunks;
    var rest := Later(code, chunks, j + 1, |chunks|);
  }

  lemma NotEmpty(code: Code, chunks: seq<seq<Byte>>, rs: seq<Status>, early: bool)
    requires Answers(code, chunks, rs, early)
    ensures 0 < |rs| <= |chunks|
  {
    hide AnswerAt;
  }

  /** A set of regexes without assertions over any chunks. */
  method SearchBothChunks(code: Code, ghost bs: seq<Branch>, chunks: seq<seq<Byte>>)
      returns (jit: seq<Status>, interpreted: seq<Status>)
    requires ProgramOf(code, bs) && AssertionFree(code) && chunks != []
    ensures Agree(code, chunks, jit, interpreted)
    ensures jit[|jit| - 1] == if MatchExists(bs, Joined(chunks)) then OK else DECLINED
  {
    hide *;
    NeverStuck(code, bs);
    AcceptsIfMatches(code, bs, Joined(chunks));
    NoAssertions(code);
    var program := new Program(code);
    var ok, paths, ids, uniq, dups := Compile(program);
    assert ok;
    var machine := new Machine(code, paths, ids[..], uniq, dups);
    machine.FreshValid();
    jit := MachineCalls(machine, chunks);
    program := new Program(code);
    interpreted := InterpreterCalls(program, chunks);
    Compare(code, chunks, jit, interpreted);
    AgreeEnds(code, chunks, jit, interpreted);
  }

  lemma AgreeEnds(code: Code, chunks: seq<seq<Byte>>, jit: seq<Status>, interpreted: seq<Status>)
    requires Agree(code, chunks, jit, interpreted)
    ensures |jit| > 0
    ensures var s := Joined(chunks);
            jit[|jit| - 1] == if AcceptsBefore(code, s, |s| + 1) then OK else DECLINED
  {
    hide AcceptsBefore, Joined;
  }
}
