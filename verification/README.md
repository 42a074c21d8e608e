# sregex, modelled and verified in Dafny

sregex is a regex engine that never backtracks: a syntax tree is compiled to bytecode,
and the bytecode is run over a stream, chunk by chunk, by one of two virtual machines
(Thompson: is there a match; Pike: which match, with captures) or by machine code
generated from a graph of epsilon-free paths.  This project models that chain and proves
what each layer promises, as the fast mutable form of a simple specification.

`dafny verify dfyconfig.toml` checks the whole project.

## Reading order

| layer | modules |
|---|---|
| trees and their meaning, `Matches(re, s, i, j)` | `Regexes` |
| counted repetition and its priorities, assembly of a set of regexes | `Repetition`, `RepetitionOrder`, `Assembly` |
| bytecode and runs over it; streams in chunks | `Bytecode`, `Chunks` |
| the compiler; runs of a fragment are matches of its tree | `Compiler`, `Fragments`, `Programs`, `Windows`, `Ranks` |
| leading bytes | `LeadingBytes` |
| Thompson VM | `Thompson`, `ThompsonMatching` |
| Thompson VM with look-ahead: on values, when it ends, when its lists fit, as it mutates | `AheadMachine`, `AheadEnds`, `AheadLoops`, `AheadExamples`, `AheadFits`, `AheadOverflow`, `ThompsonAsserts` |
| Pike VM on values: one search, priorities, leftmost | `PikeMachine`, `PikePriority`, `PikeOrder`, `PikeLeftmost` |
| Pike VM as it is called: chunks and the jump to the next leading byte | `PikeStream`, `PikeFits`, `PikeSkip`, `PikeLate`, `PikeChunks`, `PikeSkipExact`, `PikeSkipExample`, `PikeFinds`, `PikePartial` |
| Pike VM as it mutates: thread lists, counted captures, tags | `Captures`, `PikeLost`, `Pike`, `PikeMatching` |
| JIT path graph and the machine it drives | `JitGraph`, `JitMachine`, `JitPrograms`, `JitChunks` |
| DynASM passes | `DynAsm`, `DynAsmLink`, `DynAsmEncode` |
| pool | `Pool` |

Instruction pointers are indices and tags are unbounded naturals.  Classes mirror the
records the C code updates (`Program`, `ThreadList`, `Context`, `Store` of captures,
`Graph`, `Machine`, `Pool`, `Block`); their methods refine the functions on values, about
which the theorems are proved.  "Look-ahead-free" means without `$`, `\z`, `\b`, `\B`.

## The jump to the next leading byte

The code that skips to the next leading byte (src/sregex/sre_vm_pike.c:256-309) is meant
to be invisible.  It is not, for every program.  A jump records that the start state was
seen, and the step right after the jump does not clear that; if that step finds a match,
the list it leaves may look like the initial one, because the last thread is not compared.
Then the machine jumps again and drops threads that were preferred to the match.
`PikeSkipExample.SkipShows` compiles `a+b?` and shows that it answers "a" on "xab", where
the search without the jump answers "ab".

`PikeChunks.SkipSafe` is the exact condition.  It can be decided from the compiled program
alone: run one step on the start list, for each pair of bytes, and compare instruction
indices.  For every look-ahead-free program Pike finds a match exactly if there is one,
and the range it reports matches (`PikeFinds.PikeFinds`).  Each of the following holds on
every input if and only if the program is `SkipSafe`: the answer is that of the search
without the jump, however the stream is cut (`PikeSkipExact.SkipInvisible`); nothing
starts before the match reported (`PikeFinds.LeftmostExactly`); the captures follow the
priorities (`PikeFinds.PrioritiesExactly`); data before the reported partial range can be
discarded (`PikePartial.DiscardExactly`).  The model keeps the code as it is.

Two smaller places where the model follows the code: the second element of the partial
range is taken from slot 1 of every thread, whatever regex the thread belongs to
(src/sregex/sre_vm_pike.c:719-729, `PikePartial.GreatestSlot1`); and on a pool whose size
is no multiple of the word, an aligned allocation can start behind the end of its block
(`Pool.Overrun`), since the test for room subtracts unsigned numbers.

## Counted repetition

The parser writes `x{n,m}` out as n copies and m - n times `x?` one after the other, and
`x{n,}` as n copies and `x*`.  The order in which the ways to match are tried follows from
the subject alone: from each way to take the n copies, greedy repetition takes one more
before it stops, non-greedy repetition stops first (`RepetitionOrder.UnboundedOrder`,
`RepetitionOrder.BoundedOrder`).  As the optional copies are not nested, a way that skips
one and takes the next is tried as well, so the same end can come up more than once:
`a{1,3}` on "aaaa" ends at 3, 2, 2, 1, and `a{1,3}?` at 1, 2, 2, 3
(`RepetitionOrder.OneToThree`).

## Captures that are not reused

A capture whose count falls to 0 goes on the free list where `sre_capture_decr_ref` is
used, and `sre_capture_create` takes it from there.  Two places do without.  Where adding
a thread ends at an instruction visited already, or at a look-behind assertion that does
not hold, the holding is dropped and the count stays (src/sregex/sre_vm_pike.c:756-942);
`PikeLost.Lost` says how often, and every method of `Pike.Context` that adds threads loses
exactly that many.  And when the first arm of a SPLIT matches, the count is taken down
without a look at the free list (src/sregex/sre_vm_pike.c:798-812).  If it was the last
one, the capture has count 0 and is not free: so "count 0 exactly if on the free list"
does not hold of the code.  `Captures.GoneForGood` shows it for captures with one holder
and a first arm that saves and matches; `Pike.Context.FollowSplit` has the condition, which
is exact: after a first arm that matches, the captures are gone if and only if their count
is 0.  Everywhere else the counts are exact, and count 0 means free (`Captures.Freed`).
Nothing is used after it was freed; the memory stays with the pool.

## Look-ahead in the Thompson VM

A look-ahead assertion waits on the list; if it holds, what follows it is added to the
list that is being run, under the mark of that list
(src/sregex/sre_vm_thompson.c:174-231).  An instruction has one mark, so this takes marks
of the next list back, and a byte consumed later takes them again.  An answer that is
given is right (`AheadMachine.SearchRight`), but two things can go wrong, under different
conditions.

The search need not end.  It does end unless, at a position before the first match ends,
an assertion that holds is *tangled* with a byte that is consumed: the assertion follows
itself without a byte, and what follows the two lies on one cycle of steps that need
neither byte nor look-ahead (`AheadEnds.ClearEnds`).  So every set of regexes ends in which
no loop body can match empty (`AheadEnds.ProperEnds`).  Where one tangled assertion holds,
a bounded number of threads decides exactly: the position is left by then, or never
(`AheadLoops.StuckExactly`, `AheadLoops.EndsExactly`).  What the tangle alone does not say
is the order in which the list is run.  Compiled, `(?:a?|\b)*c` on "a" never ends
(`AheadExamples.LoopShows`); `(?:\b?a?)+c`, tangled in the same way but with the assertion
before the byte, does (`AheadExamples.GapShows`).

The lists, arrays of program length (src/sregex/sre_vm_thompson.c:29-58), need not fit.
They do fit if nothing that waits follows both an assertion that holds and a byte that is
consumed at one position (`AheadFits.ApartFits`), for instance without any look-ahead.
They do not fit for `(?:a|(?:\b|(?:a|(?:\b|...))))d?(?:d?(?:...d))` on "a", with four
pairs of arms `a`, `\b` and nine times `d?`, although no loop is in it and its search ends
(`AheadOverflow.DoesNotFit`).

## Model

| member | source | states |
|---|---|---|
| Compiler.EmitBytecode | src/sregex/sre_regex_compiler.c:288-482 | emission with back-patched targets and swapped arms writes exactly the code of the tree, `ProgramLen` instructions, and nothing else in the buffer |
| PikeMatching.Compile | src/sregex/sre_regex_compiler.c:31-71 | compiling fills the buffer exactly: the check for a buffer error never fails |
| Compiler.LayoutUnique | src/sregex/sre_regex_compiler.c:288-482 | a tree has one code: any two layouts of it at the same index agree instruction by instruction |
| Compiler.LayoutClosed | src/sregex/sre_regex_compiler.c:295-317 | the code of any tree can only be left through its end |
| Fragments.RunMatches | src/sregex/sre_regex_compiler.c:288-482 | soundness of compilation: a run from the first to the end index of a fragment over s[i..j] spells out `Matches(re, s, i, j)`, all six assertions included |
| Fragments.MatchesRun | src/sregex/sre_regex_compiler.c:288-482 | completeness: every match is spelled out by such a run, for greedy and non-greedy operators |
| Fragments.CompilationPreservesMeaning | src/sregex/sre_regex_compiler.c:288-482 | both directions at once, for every tree, stream, range and capture vector |
| Programs.ProgramAccepts | src/sregex/sre_yyparser.c:3402-3426 | the wrapped program reaches a MATCH after p bytes if and only if some regex of the set matches some s[i..p] |
| Programs.ProgramRunMatches | src/sregex/sre_regex_compiler.c:457-470 | the MATCH a run reaches carries the id of a regex that matches from where the run left the search loop, and its $0 slots hold that range |
| Programs.ProgramLive | src/sregex/sre_regex_compiler.c:63-71 | targets of instructions that can be reached are inside the program and not the JMP behind a MATCH |
| Programs.ProgramClosed | src/sregex/sre_regex_compiler.c:295-317 | no run from the start leaves the program or meets the JMP behind a MATCH, though that JMP may target one past the end |
| Repetition.Desugar | src/sregex/sre_yyparser.c:3561-3634 | the loops build the tree `Counted(subj, from, to, greedy)`, whose matches, priorities and length the next rows give |
| Repetition.CountedMatches | src/sregex/sre_yyparser.c:3561-3634 | that tree matches exactly the concatenations of k copies of the subject with from <= k and k <= to, or no upper bound for to = -1 |
| Repetition.CountedLength | src/sregex/sre_regex_compiler.c:244-285 | the closed form of its compiled length in from, to and the length of the subject |
| RepetitionOrder.UnboundedOrder | src/sregex/sre_yyparser.c:3592-3611 | with no upper bound the ways to match come in the order of the mandatory copies and, from each, as many more as there are: one more before stopping when greedy, after it when not |
| RepetitionOrder.BoundedOrder | src/sregex/sre_yyparser.c:3613-3631 | with an upper bound they come in the order of the mandatory copies and, to - from times in turn, one more before none when greedy, none before one more when not |
| RepetitionOrder.UnlimitedIs | src/sregex/sre_yyparser.c:3606 | what "as many more as there are" means, in one equation over the results of the subject |
| RepetitionOrder.OptionalIs | src/sregex/sre_yyparser.c:3624 | what "one more or none" means, in one equation over the results of the subject |
| RepetitionOrder.TwoOrMore | src/sregex/sre_yyparser.c:3592-3611 | `a{2,}` on "aaaa" ends at 4, 3, 2 in this order, its non-greedy form at 2, 3, 4 |
| RepetitionOrder.OneToThree | src/sregex/sre_yyparser.c:3613-3631 | `a{1,3}` on "aaaa" ends at 3, 2, 2, 1, its non-greedy form at 1, 2, 2, 3 |
| Assembly.ParseMulti | src/sregex/sre_yyparser.c:3443-3557 | the set is assembled as the search loop followed by the alternation of all regexes, with ids in order; the group bases given while parsing are those recomputed from the counts, the largest count is right, and an error names the first regex that does not parse |
| Windows.WindowsPartition | src/sregex/sre_regex_compiler.c:82-86 | every slot of the capture vector lies in the window of exactly one regex |
| Windows.LeafSaves | src/sregex/sre_yyparser.c:3474-3534 | every SAVE in the code of a regex writes inside its window, and only the first writes its first slot |
| Windows.MatchOwns | src/sregex/sre_vm_pike.c:945-989 | a run to a MATCH has written only inside the window of the regex that this MATCH names |
| Windows.ReportedIs | src/sregex/sre_vm_pike.c:960-978 | what is reported for a regex is its window slot by slot, the offset of the regexes before it included, and -1 in every later slot |
| LeadingBytes.CollectLeading | src/sregex/sre_regex_compiler.c:149-241 | the recursion that stamps tags and appends to the list computes `Collect`, of which the next two rows say what it finds |
| LeadingBytes.LeadingListCovers | src/sregex/sre_regex_compiler.c:123-241 | a list that is not NULL covers every consuming instruction that follows the start without consuming, except the dot of the search loop, and no MATCH follows |
| LeadingBytes.LeadingExactly | src/sregex/sre_regex_compiler.c:123-241 | the list is NULL if and only if a MATCH or a dot follows the start without consuming, or nothing that consumes does; otherwise it holds only consuming instructions that follow, one that reads the same as each of these, and no CHAR twice |
| Thompson.AddThread | src/sregex/sre_vm_thompson.c:273-345 | adds exactly what follows the instruction at this position and waits, each once, within an array of program length; terminates on unstamped instructions |
| Thompson.Context.Exec | src/sregex/sre_vm_thompson.c:63-270 | one call on a chunk: OK if and only if a match ends before the end of what was read, or at it with eof; DECLINED only with eof, AGAIN only without, with a context fit for the next call |
| ThompsonMatching.Search | src/sregex/sre_vm_thompson.c:63-270 | end to end, for every look-ahead-free set: one call with eof answers OK if some i <= j has `Matches(re, s, i, j)`, else DECLINED |
| ThompsonMatching.SearchChunks | src/sregex/sre_vm_thompson.c:79-94 | the same answer for every way of cutting the stream into chunks, empty ones included |
| AheadMachine.Complete | src/sregex/sre_vm_thompson.c:174-231 | with look-ahead: when every thread of a list has been run, everything a run can be at has been visited, though marks may have been taken back |
| AheadMachine.SearchRight | src/sregex/sre_vm_thompson.c:63-270 | with all six assertions, for every program: an answer that is given says whether a match ends anywhere |
| AheadEnds.StepLess | src/sregex/sre_vm_thompson.c:174-231 | where nothing is tangled every thread makes a measure of the marks and the list smaller, or only leaves the list one shorter |
| AheadEnds.ClearEnds | src/sregex/sre_vm_thompson.c:63-270 | the search ends if nothing is tangled at a position before the first match ends |
| AheadEnds.ProperEnds | src/sregex/sre_vm_thompson.c:63-270 | it ends on every stream for every set of regexes in which no loop body can match empty |
| AheadLoops.GoingOn | src/sregex/sre_vm_thompson.c:174-231 | a tangled assertion that will have its turn behind the byte has it again: every thread keeps that |
| AheadLoops.StuckExactly | src/sregex/sre_vm_thompson.c:96-236 | where one assertion of a cycle holds: a position is never left if and only if it is not left after as many threads as are on the list and on the list the assertion starts |
| AheadLoops.EndsExactly | src/sregex/sre_vm_thompson.c:63-270 | so, if wherever something is tangled it is one such assertion, the whole search ends if and only if that many threads leave each such position it comes to |
| AheadLoops.NeverEnds | src/sregex/sre_vm_thompson.c:174-231 | otherwise no amount of fuel is enough, and the list is longer than any bound |
| AheadExamples.LoopShows | src/sregex/sre_vm_thompson.c:174-231 | a compiled loop over an optional a or a word boundary, then c, on "a": out of fuel for every fuel, with a list longer than it |
| AheadExamples.GapShows | src/sregex/sre_vm_thompson.c:174-231 | a compiled loop over an optional word boundary and an optional a, then c, on "a": tangled in the same way where no match ends, and DECLINED after eight threads |
| AheadFits.ApartFits | src/sregex/sre_vm_thompson.c:29-58 | where assertions and bytes are apart, both lists hold at most as many entries as the program has instructions in every state of every run, and the run ends after (size + 1) * length threads |
| AheadOverflow.ListLength | src/sregex/sre_vm_thompson.c:29-58 | for r pairs of arms and m options: the length of the program, the length of the list after the arms, 2r + 1 + r(m + 1), and that the search ends |
| AheadOverflow.DoesNotFit | src/sregex/sre_vm_thompson.c:29-58 | that list is longer than the program if and only if rm > 3r + 2m + 4 |
| ThompsonAsserts.AddLooking | src/sregex/sre_vm_thompson.c:273-345 | the recursion that stamps tags follows what `AheadMachine.Work` follows, in that order |
| ThompsonAsserts.Context.RunThread | src/sregex/sre_vm_thompson.c:100-236 | one thread does what `AheadMachine.RunOne` does; restamping takes the marks of the other list back |
| ThompsonAsserts.Context.Exec | src/sregex/sre_vm_thompson.c:63-270 | a call answers what `AheadMachine.SearchAhead` answers, with the same threads |
| ThompsonAsserts.SearchLooking | src/sregex/sre_vm_thompson.c:63-270 | end to end: an answer is OK if and only if some regex matches some range, and one is given after (size + 1) * length threads without look-ahead, or where assertions and bytes are apart |
| Ranks.ProgramRanked | src/sregex/sre_regex_compiler.c:376-437 | a program in which no loop body can match empty has no cycle that does not consume |
| PikePriority.AnswerBacktracks | src/sregex/sre_vm_pike.c:311-581 | lockstep search with duplicates dropped answers as a backtracker that tries x before y at each SPLIT: same id, same captures |
| PikeOrder.PikeFollowsPriorities | src/sregex/sre_vm_pike.c:756-942 | that answer is the first in the order the trees alone define: leftmost start, earlier regex, left arm first, greedy as often as possible, non-greedy as seldom |
| PikeLeftmost.StepKeeps | src/sregex/sre_vm_pike.c:311-601 | what every step keeps: the threads are runs in the order of their starts and none started after the pending match; whatever a run can be waiting at has a thread that started no later; every match that has ended starts no earlier than the pending one |
| PikeLeftmost.PikeIsLeftmost | src/sregex/sre_vm_pike.c:530-553 | for every look-ahead-free set, empty loops included: the search without the jump finds a match iff there is one, its range matches the regex named, and no match of any regex starts earlier |
| PikeFits.RunOncePer | src/sregex/sre_vm_pike.c:756-942 | the list of the next position holds each instruction at most once, and only instructions visited |
| PikeFits.FeedFits | src/sregex/sre_vm_pike.c:236-601 | however a stream is fed, jumps included, the list stays without duplicates and so within program length |
| PikeChunks.FeedSure | src/sregex/sre_vm_pike.c:236-601 | what every step keeps with the jump: all threads and matches are those of real runs, and the search to come answers the same while there is no match or the program is SkipSafe |
| PikeChunks.ChunksDoNotMatter | src/sregex/sre_vm_pike.c:202-233 | for a SkipSafe program any sequence of chunks, empty ones included, ends with the id and absolute captures of one search of the whole stream |
| PikeChunks.LooksInitialIs | src/sregex/sre_vm_pike.c:256-309 | the machine's test of its list is equality of length and of all instructions but the last with the list a search begins with, on which `SkipSafe` is stated |
| PikeSkipExact.SkipInvisible | src/sregex/sre_vm_pike.c:256-309 | the answer is that of the search that never jumps, on every stream and for every cutting, if and only if the program is SkipSafe |
| PikeSkipExact.UnsafeShows | src/sregex/sre_vm_pike.c:256-309 | every program that is not SkipSafe reports, on a stream of four bytes, a match although one that starts earlier exists |
| PikeSkipExample.SkipShows | src/sregex/sre_vm_pike.c:256-309 | the compiled `a+b?` on "xab": (1, 2) with the jump, (1, 3) without |
| PikeFinds.PikeFinds | src/sregex/sre_vm_pike.c:148-689 | for every look-ahead-free set and every cutting: the calls end, with a match exactly if some regex matches somewhere, and the reported range matches the reported regex |
| PikeFinds.LeftmostExactly | src/sregex/sre_vm_pike.c:770-787 | no match of any regex starts before the one reported, on every stream, if and only if the program is SkipSafe |
| PikeFinds.PrioritiesExactly | src/sregex/sre_vm_pike.c:798-812 | id and captures are those of the priorities of the trees, on every stream, if and only if the program is SkipSafe |
| PikePartial.LaterMatchesStartLater | src/sregex/sre_vm_pike.c:673-688 | for a SkipSafe program, after any chunks, a match reported later starts at or after the reported start, or after everything processed when that is -1 |
| PikePartial.DiscardExactly | src/sregex/sre_vm_pike.c:692-735 | that range is safe to discard by, for all chunks before and after, if and only if the program is SkipSafe |
| Captures.Store.Create | src/sregex/sre_capture.c:20-56 | takes the first capture off the free list and leaves the set of captures as it is, and only with an empty list makes a new one; nobody held it, every other capture keeps its count, vector and id, and all counts stay exactly the number of holders |
| Captures.Store.Update | src/sregex/sre_capture.c:59-85 | writes one slot in place if and only if there is one holder, else in a copy with one holding less on the original, so that no other holder sees a change; counts stay exact |
| Captures.Store.DecrRef | src/sregex/sre_capture.h:18-22 | the count falls by exactly one, and the capture is put at the head of the free list exactly if it was the last holding; whatever has count 0 is on that list or was left off it by `Unshare` |
| Captures.Store.Unshare | src/sregex/sre_vm_pike.c:798-812 | the plain decrement: the count falls by exactly one, and with the last holding the capture is gone |
| Captures.GivenBack | src/sregex/sre_capture.h:18-22 | a capture created, given back and created again is the same one, with one holder |
| Captures.GoneForGood | src/sregex/sre_vm_pike.c:798-812 | captures with one holder, at a SPLIT whose first arm saves and matches, end with count 0 and off the free list |
| Pike.Context.AddThread | src/sregex/sre_vm_pike.c:756-942 | the recursion with shared captures adds what `PikeMachine.Add` adds, with the same tags; captures of other threads do not change, counts are exactly the number of holders, in-flight calls included, and exactly `PikeLost.Lost` holdings are dropped; terminates although a SPLIT can be entered again |
| Pike.Context.FollowSplit | src/sregex/sre_vm_pike.c:798-812 | the arms in order, the second only if the first does not match; after a first arm that matches, the captures are gone if and only if their count is 0 |
| Pike.Context.RunCurrent | src/sregex/sre_vm_pike.c:311-581 | one position: threads run in order, a match cuts those behind it and replaces the pending one; every holding of a thread that is cut or run is given back but for exactly `PikeLost.RunLost` |
| Pike.Context.FindFirstByte | src/sregex/sre_vm_pike.c:992-1061 | the scan stops at the first byte from sp on that some listed instruction accepts |
| Pike.Context.Clear | src/sregex/sre_vm_pike.c:1064-1080 | empties a list; every count falls by exactly the threads of the list that held the capture, and what only the list held ends on the free list |
| Pike.Context.PrepareMatched | src/sregex/sre_vm_pike.c:945-989 | the ovector holds the window of the matched regex, as `Windows.ReportedIs` gives it slot by slot, if the id is that of a regex; otherwise an error |
| Pike.Context.PrepareTemp | src/sregex/sre_vm_pike.c:692-735 | sets the partial range to the least start of any thread and regex, and the greatest value of slot 1 |
| Pike.Context.Exec | src/sregex/sre_vm_pike.c:148-689 | one call does what `PikeStream.Setup.Exec` does on values, and the caller sees id, ovector, pending pair or partial range accordingly; a match is pending only while threads are left; between calls the list has at most program length |
| PikeMatching.MatchChunks | src/sregex/sre_vm_pike.c:148-689 | end to end through the mutating machine, for every cutting: the call ends with a match exactly if some regex matches somewhere; ovector[0] and ovector[1] are a range inside the stream that the regex named matches; the slots are those of its window in a real run and all later ones -1; leftmost by priority if the program is SkipSafe |
| PikeMatching.PendingIsReal | src/sregex/sre_vm_pike.c:640-671 | a pair reported before the last call is the range of a match of some regex; none is reported only if no match of any regex ends before the bytes that have been read |
| JitGraph.Graph.NextStates | src/sregex/sre_vm_thompson_x64.h:860-963 | collects exactly the consuming instructions and MATCHes that follow, each once, and counts each thread state once more |
| JitGraph.Graph.BuildPaths | src/sregex/sre_vm_thompson_x64.h:418-489 | every state of a path built has its own path and no path is empty; it fails only if nothing can follow some instruction |
| JitGraph.Graph.AssignIds | src/sregex/sre_vm_thompson_x64.h:360-380 | ids for exactly the states that lie on more than one path, counted up from 0 in the order of the program; the two totals are the number of these states and the number of thread states |
| JitMachine.Machine.Step | src/sregex/sre_vm_thompson_x64.h:781-843 | one position of the path machine: with check bits for duplicable states only, the list has no duplicate and at most uniq_threads entries, and is what the interpreter's list stands for |
| JitMachine.BothAnswer | src/sregex/sre_vm_thompson_x64.h:318-415 | for programs without assertions the path machine and the interpreter give the same answer, or there is no JIT code because nothing follows some instruction |
| JitPrograms.NeverStuck | src/sregex/sre_vm_thompson_x64.h:464-466 | in a compiled program something follows every instruction, so that last case does not arise |
| JitChunks.Compare | src/sregex/sre_vm_thompson_x64.h:318-415 | call by call on any chunks: the machine is never later than the interpreter, the last answers are the same, and if the interpreter is later then all chunks in between are empty |
| JitChunks.SearchBothChunks | src/sregex/sre_vm_thompson_x64.h:318-415 | that holds for both mutating machines, on every set of regexes without assertions, and the last answer is right |
| JitPrograms.SearchBoth | src/sregex/sre_vm_thompson_x64.h:318-415 | for every set of regexes without assertions JIT code is built, and both machines give the right answer |
| DynAsmLink.CheckLabels | dynasm/dasm_x86.h:271-279 | reports the first label that some reference needs and that is not there, if there is one |
| DynAsm.PassOne | dynasm/dasm_x86.h:166-261 | forward references are threaded through the buffer and resolved when their label is placed: every reference holds the position of its label, every estimate is the maximum offset |
| DynAsmLink.Link | dynasm/dasm_x86.h:264-345 | one sweep over estimates makes a branch short only if the final displacement is in [-128, 127], and leaves one long only if it does not reach, by the estimates forwards and by the final offsets backwards; fixes label offsets, and computes the size |
| DynAsmLink.ShrinkByIs | dynasm/dasm_x86.h:313-318 | which branches can be short: jmp by three bytes, the sixteen conditional jumps by four, no other |
| DynAsmLink.ShiftDown | dynasm/dasm_x86.h:303-330 | what has shrunk stays shrunk: later offsets lie at least as far below their estimates |
| DynAsmEncode.Nops | dynasm/dasm_x86.h:420-423 | alignment is filled with nops up to the first aligned offset |
| DynAsmEncode.Encode | dynasm/dasm_x86.h:358-438 | exactly codesize bytes are written: given bytes, nops, and each branch with the displacement that reaches its label, in four bytes or in one with its short opcode |
| DynAsmEncode.BranchReaches | dynasm/dasm_x86.h:394-405 | the displacement bytes of every branch, read as the processor does, lead from behind the branch to its label |
| DynAsmEncode.Assemble | src/sregex/sre_vm_thompson_jit.c:72-97 | the three passes in a row: the code is written, as long as the link says and with every branch short that reaches, if and only if every reference has its label; otherwise the first that has none is reported |
| DynAsmEncode.ShortJumps | dynasm/dasm_x86.h:303-330 | a jmp to the next instruction is eb 00, a jne to it 75 00 |
| Pool.Pool.Take | src/sregex/sre_palloc.c:151-212 | returns the first fit from `current` on, or a new block; word aligned when asked; the pool stays valid unless alignment is asked of a pool whose size is no multiple of the word |
| Pool.Pool.AddBlock | src/sregex/sre_palloc.c:216-254 | a block of the pool's size at the end of the acyclic chain with its first allocation and no failure; every block from `current` up to the one before last has failed once more, and `current` moves right behind the last of these that had failed more than four times, or stays |
| Pool.WalkedMeans | src/sregex/sre_palloc.c:243-250 | the same block by block: which failures are counted, where `current` can be, and that no block from there up to the one before last had failed more than four times |
| Pool.Pool.Reset | src/sregex/sre_palloc.c:118-148 | every block is free again behind the header of the pool; forgets all small allocations, keeps the chain, `current` and the failures |
| Pool.Pool.LiveApart | src/sregex/sre_palloc.c:151-254 | all small allocations since the last reset are pairwise disjoint and inside some block |
| Pool.Overrun | src/sregex/sre_palloc.c:157-171 | for every pool size that is no multiple of the word, a run after which an aligned allocation starts at or behind the end of its block |

## Left out

- The LALR driver, its tables and the lexer (src/sregex/sre_yyparser.c): parsing a source text is a parameter of `Assembly.ParseMulti`; the single-regex entry point builds what a set of one builds.
- Case folding, character class copying, program and capture dumps, src/sre_cli.c: they would only add easy members.
- The emitted machine code, its registers, `mmap` and `mprotect`: the path graph, the dedup bits and the lists are modelled. The JIT with assertions is left out: its visited stamp ignores the assertion mask.
- DynASM: several sections, externs, exported globals, immediates, displacements with register marks, `dasm_put` start positions and 32-bit wrap-around; the byte before a relocation that is no branch is assumed not to look like a branch opcode, as dynasm/dasm_x86.lua requires.
- Out-of-memory returns, tag wrap-around, overflow of offsets, overflow of numbers in `{n,m}`.
- Restarting Pike after a match (`empty_capture`, `seen_newline`, `seen_word`, `last_matched_pos`): claims are for the first match from a fresh context.
- Look-ahead assertions in Pike, and across chunks in both machines: position 0 of a later chunk does not see the byte before it.
- Thread nodes are sequences of nodes rather than linked ones, so the free list of nodes and the tail pointer are not modelled; capture vectors are sequence fields, so sharing of their memory is captured by the objects that hold them.
- Large allocations, cleanup handlers and `sre_pfree` of the pool.
- ThompsonAsserts.Context.Exec: lists grow as long as they have to, because what the code does past the end of an array has no meaning; `fuel` bounds the threads run.
- AheadLoops.EndsExactly: is about positions where one assertion holds on its cycle and the rest of the list adds nothing to it, because with more of them the list can grow by a cycle at several places in turn; `AheadEnds.ClearEnds` has no such condition.
- AheadFits.ApartFits: is no condition on the program alone for lists that are too long, because duplicates need the order of the list as well.
- Pike.Context.Exec: does not describe the state left by a reported match, because restarting from it is left out.
- DynAsmLink.CheckLabels: is compiled into the link only with DASM_CHECKS; labels between isolated steps (`dasm_checkstep`) are left out.
- Pool.Pool.Take: asks that the memory the system returns for a new block is aligned and apart from the chain, because that is what the system allocator promises.
