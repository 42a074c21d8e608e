/** The syntax tree of a regex and what it means.

    Matches(re, s, i, j) says that `re` matches the bytes s[i..j] of the whole
    stream `s`; assertions look at the bytes around the position they stand at.
    Nothing in this file mentions bytecode or machines.
 */
module Regexes {

  type Byte = b: int | 0 <= b < 256

  const NEWLINE: Byte := 10

  /** The look-behind assertions are BigA and Caret, the other four look ahead. */
  datatype Assertion = SmallZ | Dollar | BigB | SmallB | BigA | Caret {
    predicate LookAhead() { !BigA? && !Caret? }
  }

  datatype Range = Range(from: Byte, to: Byte)

  datatype Regex =
    | Nil
    | Alt(left: Regex, right: Regex)
    | Cat(left: Regex, right: Regex)
    | Lit(ch: Byte)
    | Dot
    | Paren(group: nat, body: Regex)
    | Quest(body: Regex, greedy: bool)
    | Star(body: Regex, greedy: bool)
    | Plus(body: Regex, greedy: bool)
    | Class(ranges: seq<Range>)
    | NClass(ranges: seq<Range>)
    | Assert(assertion: Assertion)
    | Toplevel(body: Regex, id: nat)

  predicate InRanges(rs: seq<Range>, c: Byte) {
    exists k :: 0 <= k < |rs| && rs[k].from <= c <= rs[k].to
  }

  predicate IsWord(c: Byte) {
    || '0' as int <= c <= '9' as int
    || 'A' as int <= c <= 'Z' as int
    || 'a' as int <= c <= 'z' as int
    || c == '_' as int
  }

  predicate WordBefore(s: seq<Byte>, i: nat) {
    0 < i <= |s| && IsWord(s[i - 1])
  }

  predicate WordAt(s: seq<Byte>, i: nat) {
    i < |s| && IsWord(s[i])
  }

  predicate Holds(a: Assertion, s: seq<Byte>, i: nat) {
    match a
    case SmallZ => i >= |s|
    case Dollar => i >= |s| || s[i] == NEWLINE
    case BigB => WordBefore(s, i) == WordAt(s, i)
    case SmallB => WordBefore(s, i) != WordAt(s, i)
    case BigA => i == 0
    case Caret => i == 0 || (i <= |s| && s[i - 1] == NEWLINE)
  }

  ghost predicate Matches(re: Regex, s: seq<Byte>, i: nat, j: nat)
    decreases re, 0
  {
    match re
    case Nil => i == j
    case Alt(l, r) => Matches(l, s, i, j) || Matches(r, s, i, j)
    case Cat(l, r) => exists k: nat :: Matches(l, s, i, k) && Matches(r, s, k, j)
    case Lit(c) => i < |s| && s[i] == c && j == i + 1
    case Dot => i < |s| && j == i + 1
    case Class(rs) => i < |s| && InRanges(rs, s[i]) && j == i + 1
    case NClass(rs) => i < |s| && !InRanges(rs, s[i]) && j == i + 1
    case Paren(_, r) => Matches(r, s, i, j)
    case Quest(r, _) => i == j || Matches(r, s, i, j)
    case Star(r, _) => exists n: nat :: Repeats(r, s, i, j, n)
    case Plus(r, _) => exists n: nat :: n >= 1 && Repeats(r, s, i, j, n)
    case Assert(a) => i == j && Holds(a, s, i)
    case Toplevel(r, _) => Matches(r, s, i, j)
  }

  /** s[i..j] is the concatenation of exactly `n` matches of `re`. */
  ghost predicate Repeats(re: Regex, s: seq<Byte>, i: nat, j: nat, n: nat)
    decreases re, n
  {
    if n == 0 then i == j
    else exists k: nat :: Matches(re, s, i, k) && Repeats(re, s, k, j, n - 1)
  }

  /** What the grammar produces: no Toplevel node inside. */
  predicate Plain(re: Regex) {
    match re
    case Alt(l, r) => Plain(l) && Plain(r)
    case Cat(l, r) => Plain(l) && Plain(r)
    case Paren(_, r) => Plain(r)
    case Quest(r, _) => Plain(r)
    case Star(r, _) => Plain(r)
    case Plus(r, _) => Plain(r)
    case Toplevel(_, _) => false
    case _ => true
  }

  predicate LookAheadFree(re: Regex) {
    match re
    case Alt(l, r) => LookAheadFree(l) && LookAheadFree(r)
    case Cat(l, r) => LookAheadFree(l) && LookAheadFree(r)
    case Paren(_, r) => LookAheadFree(r)
    case Quest(r, _) => LookAheadFree(r)
    case Star(r, _) => LookAheadFree(r)
    case Plus(r, _) => LookAheadFree(r)
    case Toplevel(r, _) => LookAheadFree(r)
    case Assert(a) => !a.LookAhead()
    case _ => true
  }

  /** Every capture group written inside `re` is at least `lo` and below `hi`. */
  predicate GroupsWithin(re: Regex, lo: nat, hi: nat) {
    match re
    case Alt(l, r) => GroupsWithin(l, lo, hi) && GroupsWithin(r, lo, hi)
    case Cat(l, r) => GroupsWithin(l, lo, hi) && GroupsWithin(r, lo, hi)
    case Paren(g, r) => lo <= g < hi && GroupsWithin(r, lo, hi)
    case Quest(r, _) => GroupsWithin(r, lo, hi)
    case Star(r, _) => GroupsWithin(r, lo, hi)
    case Plus(r, _) => GroupsWithin(r, lo, hi)
    case Toplevel(r, _) => GroupsWithin(r, lo, hi)
    case _ => true
  }

  /** Whether `re` can match without consuming, assertions taken to hold. */
  predicate Nullable(re: Regex) {
    match re
    case Nil => true
    case Alt(l, r) => Nullable(l) || Nullable(r)
    case Cat(l, r) => Nullable(l) && Nullable(r)
    case Paren(_, r) => Nullable(r)
    case Quest(_, _) => true
    case Star(_, _) => true
    case Plus(r, _) => Nullable(r)
    case Assert(_) => true
    case Toplevel(r, _) => Nullable(r)
    case _ => false
  }

  /** No STAR or PLUS body can match empty. */
  predicate ProperLoops(re: Regex) {
    match re
    case Alt(l, r) => ProperLoops(l) && ProperLoops(r)
    case Cat(l, r) => ProperLoops(l) && ProperLoops(r)
    case Paren(_, r) => ProperLoops(r)
    case Quest(r, _) => ProperLoops(r)
    case Star(r, _) => !Nullable(r) && ProperLoops(r)
    case Plus(r, _) => !Nullable(r) && ProperLoops(r)
    case Toplevel(r, _) => ProperLoops(r)
    case _ => true
  }

  /** A match lies inside the stream and never runs backwards; one that takes
      nothing needs a nullable tree. */
  lemma {:induction false} MatchBounds(re: Regex, s: seq<Byte>, i: nat, j: nat)
    requires Matches(re, s, i, j)
    ensures i <= j && (i <= |s| ==> j <= |s|)
    ensures i == j ==> Nullable(re)
    decreases re, 0
  {
    match re
    case Alt(l, r) =>
      if Matches(l, s, i, j) { MatchBounds(l, s, i, j); } else { MatchBounds(r, s, i, j); }
    case Cat(l, r) =>
      var k: nat :| Matches(l, s, i, k) && Matches(r, s, k, j);
      MatchBounds(l, s, i, k);
      MatchBounds(r, s, k, j);
    case Paren(_, r) => MatchBounds(r, s, i, j);
    case Quest(r, _) => if i != j { MatchBounds(r, s, i, j); }
    case Star(r, _) =>
      var n: nat :| Repeats(r, s, i, j, n);
      RepeatBounds(r, s, i, j, n);
    case Plus(r, _) =>
      var n: nat :| n >= 1 && Repeats(r, s, i, j, n);
      RepeatBounds(r, s, i, j, n);
    case Toplevel(r, _) => MatchBounds(r, s, i, j);
    case _ =>
  }

  lemma {:induction false} RepeatBounds(re: Regex, s: seq<Byte>, i: nat, j: nat, n: nat)
    requires Repeats(re, s, i, j, n)
    ensures i <= j && (i <= |s| ==> j <= |s|)
    ensures i == j && n >= 1 ==> Nullable(re)
    decreases re, n
  {
    if n > 0 {
      var k: nat :| Matches(re, s, i, k) && Repeats(re, s, k, j, n - 1);
      MatchBounds(re, s, i, k);
      RepeatBounds(re, s, k, j, n - 1);
    }
  }

  lemma QuestMatches(r: Regex, greedy: bool, s: seq<Byte>, i: nat, j: nat)
    ensures Matches(Quest(r, greedy), s, i, j) <==> i == j || Matches(r, s, i, j)
  {
  }

  lemma {:induction false} RepeatsAppend(re: Regex, s: seq<Byte>, i: nat, k: nat, j: nat, m: nat, n: nat)
    requires Repeats(re, s, i, k, m) && Repeats(re, s, k, j, n)
    ensures Repeats(re, s, i, j, m + n)
    decreases m
  {
    if m > 0 {
      var h: nat :| Matches(re, s, i, h) && Repeats(re, s, h, k, m - 1);
      RepeatsAppend(re, s, h, k, j, m - 1, n);
      assert Repeats(re, s, h, j, m + n - 1);
    }
  }
}
