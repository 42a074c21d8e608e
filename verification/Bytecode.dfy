/** The bytecode and its small-step meaning.

    An instruction pointer is an index into the code.  Next lists the
    configurations an instruction can move to, in the order in which a
    backtracker would try them.
 */
module Bytecode {
  import opened Regexes

  datatype Inst =
    | Char(ch: Byte)
    | Match(id: nat)
    | Jmp(x: nat)
    | Split(x: nat, y: nat)
    | Any
    | Save(group: nat)
    | In(ranges: seq<Range>)
    | NotIn(ranges: seq<Range>)
    | Look(assertion: Assertion)
  {
    predicate Consuming() { Char? || Any? || In? || NotIn? }

    predicate Accepts(c: Byte) {
      match this
      case Char(ch) => c == ch
      case Any => true
      case In(rs) => InRanges(rs, c)
      case NotIn(rs) => !InRanges(rs, c)
      case _ => false
    }
  }

  type Code = seq<Inst>

  /** A thread of execution: where it is in the code, where in the stream, and
      the capture vector it has filled in so far. */
  datatype Conf = Conf(pc: nat, pos: nat, vec: seq<int>)

  /** A group beyond the vector is not recorded, so an empty vector stands for a
      machine without captures. */
  function SetCapture(vec: seq<int>, group: nat, pos: int): (r: seq<int>)
    ensures |r| == |vec|
  {
    if group < |vec| then vec[group := pos] else vec
  }

  function Next(code: Code, s: seq<Byte>, c: Conf): seq<Conf> {
    if c.pc >= |code| then []
    else match code[c.pc]
      case Jmp(x) => [c.(pc := x)]
      case Split(x, y) => [c.(pc := x), c.(pc := y)]
      case Save(g) => [Conf(c.pc + 1, c.pos, SetCapture(c.vec, g, c.pos))]
      case Look(a) => if Holds(a, s, c.pos) then [c.(pc := c.pc + 1)] else []
      case Match(_) => []
      case inst =>
        if c.pos < |s| && inst.Accepts(s[c.pos]) then [Conf(c.pc + 1, c.pos + 1, c.vec)] else []
  }

  ghost predicate Moves(code: Code, s: seq<Byte>, c: Conf, d: Conf) {
    d in Next(code, s, c)
  }

  /** `n` steps lead from `c` to `d`, every one of them taken at an instruction
      in code[lo..hi]. */
  ghost predicate Run(code: Code, s: seq<Byte>, lo: nat, hi: nat, c: Conf, d: Conf, n: nat)
    decreases n
  {
    if n == 0 then c == d
    else
      && lo <= c.pc < hi
      && exists m :: Moves(code, s, c, m) && Run(code, s, lo, hi, m, d, n - 1)
  }

  ghost predicate Reaches(code: Code, s: seq<Byte>, c: Conf, d: Conf) {
    exists n: nat :: Run(code, s, 0, |code|, c, d, n)
  }

  lemma {:induction false} RunAppend(code: Code, s: seq<Byte>, lo: nat, hi: nat, c: Conf, d: Conf, e: Conf, m: nat,
                                     n: nat)
    requires Run(code, s, lo, hi, c, d, m) && Run(code, s, lo, hi, d, e, n)
    ensures Run(code, s, lo, hi, c, e, m + n)
    decreases m
  {
    hide Moves;
    if m > 0 {
      var c' :| Moves(code, s, c, c') && Run(code, s, lo, hi, c', d, m - 1);
      RunAppend(code, s, lo, hi, c', d, e, m - 1, n);
    }
  }

  lemma {:induction false} RunWiden(code: Code, s: seq<Byte>, lo: nat, hi: nat, lo': nat, hi': nat, c: Conf, d: Conf,
                                    n: nat)
    requires Run(code, s, lo, hi, c, d, n)
    requires lo' <= lo && hi <= hi'
    ensures Run(code, s, lo', hi', c, d, n)
    decreases n
  {
    if n > 0 {
      var c' :| Moves(code, s, c, c') && Run(code, s, lo, hi, c', d, n - 1);
      RunWiden(code, s, lo, hi, lo', hi', c', d, n - 1);
    }
  }

  lemma {:induction false} RunLast(code: Code, s: seq<Byte>, lo: nat, hi: nat, c: Conf, d: Conf, n: nat)
      returns (b: Conf)
    requires n > 0 && Run(code, s, lo, hi, c, d, n)
    ensures Run(code, s, lo, hi, c, b, n - 1) && lo <= b.pc < hi && Moves(code, s, b, d)
    decreases n
  {
    var c' :| Moves(code, s, c, c') && Run(code, s, lo, hi, c', d, n - 1);
    if n == 1 {
      b := c;
    } else {
      b := RunLast(code, s, lo, hi, c', d, n - 1);
    }
  }

  lemma {:induction false} RunBounds(code: Code, s: seq<Byte>, lo: nat, hi: nat, c: Conf, d: Conf, n: nat)
    requires Run(code, s, lo, hi, c, d, n)
    ensures c.pos <= d.pos && |d.vec| == |c.vec| && (c.pos <= |s| ==> d.pos <= |s|)
    decreases n
  {
    if n > 0 {
      var c' :| Moves(code, s, c, c') && Run(code, s, lo, hi, c', d, n - 1);
      RunBounds(code, s, lo, hi, c', d, n - 1);
    }
  }

  /** The instruction at `pc` cannot leave code[lo..hi] except through `hi`. */
  predicate StaysIn(inst: Inst, pc: nat, lo: nat, hi: nat) {
    match inst
    case Jmp(x) => lo <= x <= hi
    case Split(x, y) => lo <= x <= hi && lo <= y <= hi
    case Match(_) => true
    case _ => lo <= pc + 1 <= hi
  }

  predicate Closed(code: Code, lo: nat, hi: nat) {
    hi <= |code| && forall pc :: lo <= pc < hi ==> StaysIn(code[pc], pc, lo, hi)
  }

  lemma StepStays(code: Code, s: seq<Byte>, b: nat, m: nat, c: Conf, d: Conf)
    requires Closed(code, b, m) && b <= c.pc < m && Moves(code, s, c, d)
    ensures b <= d.pc <= m
  {
    assert StaysIn(code[c.pc], c.pc, b, m);
  }

  /** A run that starts in a closed fragment [b, m] and ends outside [b, m)
      passes through `m`; the part before is a run of the fragment. */
  lemma {:induction false} SplitRun(code: Code, s: seq<Byte>, lo: nat, hi: nat, b: nat, m: nat,
                                    c: Conf, d: Conf, n: nat) returns (k: nat, q: Conf)
    requires Run(code, s, lo, hi, c, d, n)
    requires lo <= b <= m <= hi && Closed(code, b, m)
    requires b <= c.pc <= m && !(b <= d.pc < m)
    ensures k <= n && q.pc == m
    ensures Run(code, s, b, m, c, q, k)
    ensures Run(code, s, lo, hi, q, d, n - k)
    decreases n
  {
    hide Moves, Closed;
    if c.pc == m {
      k, q := 0, c;
    } else {
      var c' :| Moves(code, s, c, c') && Run(code, s, lo, hi, c', d, n - 1);
      StepStays(code, s, b, m, c, c');
      k, q := SplitRun(code, s, lo, hi, b, m, c', d, n - 1);
      k := k + 1;
    }
  }

  predicate CodeLookAheadFree(code: Code) {
    forall pc :: 0 <= pc < |code| && code[pc].Look? ==> !code[pc].assertion.LookAhead()
  }

  lemma MovesPrefix(code: Code, s: seq<Byte>, t: seq<Byte>, c: Conf, d: Conf)
    requires CodeLookAheadFree(code) && d.pos <= |s|
    ensures Moves(code, s, c, d) <==> Moves(code, s + t, c, d)
  {
  }

  /** Without look-ahead a run only depends on the bytes it has passed. */
  lemma {:induction false} RunPrefix(code: Code, s: seq<Byte>, t: seq<Byte>, lo: nat, hi: nat, c: Conf, d: Conf, n: nat)
    requires CodeLookAheadFree(code) && hi <= |code|
    requires d.pos <= |s|
    ensures Run(code, s, lo, hi, c, d, n) <==> Run(code, s + t, lo, hi, c, d, n)
    decreases n
  {
    hide Moves, CodeLookAheadFree;
    if n > 0 && lo <= c.pc < hi {
      forall c' ensures Moves(code, s, c, c') && Run(code, s, lo, hi, c', d, n - 1) <==>
                        Moves(code, s + t, c, c') && Run(code, s + t, lo, hi, c', d, n - 1)
      {
        RunPrefix(code, s, t, lo, hi, c', d, n - 1);
        if Run(code, s, lo, hi, c', d, n - 1) {
          RunBounds(code, s, lo, hi, c', d, n - 1);
          MovesPrefix(code, s, t, c, c');
        }
      }
    }
  }
}
