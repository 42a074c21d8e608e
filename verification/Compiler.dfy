/** From syntax tree to bytecode (src/sregex/sre_regex_compiler.c).

    Layout(code, b, re) is the specification of the code emitted for `re` at
    index `b`; EmitBytecode, which fills a buffer and patches targets back,
    is proved against it.
 */
module Compiler {
  import opened Regexes
  import opened Bytecode

  function ProgramLen(re: Regex): nat {
    match re
    case Alt(l, r) => 2 + ProgramLen(l) + ProgramLen(r)
    case Cat(l, r) => ProgramLen(l) + ProgramLen(r)
    case Paren(_, r) => 2 + ProgramLen(r)
    case Quest(r, _) => 1 + ProgramLen(r)
    case Star(r, _) => 2 + ProgramLen(r)
    case Plus(r, _) => 1 + ProgramLen(r)
    case Toplevel(r, _) => 1 + ProgramLen(r)
    case Nil => 0
    case _ => 1
  }

  /** A SPLIT that prefers to enter a loop or option body when it is greedy. */
  function Choice(greedy: bool, enter: nat, leave: nat): Inst {
    if greedy then Split(enter, leave) else Split(leave, enter)
  }

  /** The one instruction a tree without subtrees turns into. */
  function LeafInst(re: Regex): Inst {
    match re
    case Lit(c) => Char(c)
    case Class(rs) => In(rs)
    case NClass(rs) => NotIn(rs)
    case Assert(a) => Look(a)
    case _ => Any
  }

  /** code[b..b + ProgramLen(re)] is the code of `re`. */
  predicate Layout(code: Code, b: nat, re: Regex)
    decreases re, 1
  {
    && b + ProgramLen(re) <= |code|
    && match re
       case Nil => true
       case Alt(l, r) => LayoutAlt(code, b, l, r)
       case Cat(l, r) => LayoutCat(code, b, l, r)
       case Paren(g, r) => LayoutParen(code, b, g, r)
       case Quest(r, greedy) => LayoutQuest(code, b, r, greedy)
       case Star(r, greedy) => LayoutStar(code, b, r, greedy)
       case Plus(r, greedy) => LayoutPlus(code, b, r, greedy)
       case Toplevel(r, id) => LayoutToplevel(code, b, r, id)
       case _ => code[b] == LeafInst(re)
  }

  predicate LayoutAlt(code: Code, b: nat, l: Regex, r: Regex)
    decreases Alt(l, r), 0
  {
    var m := b + 1 + ProgramLen(l);
    && m < |code|
    && code[b] == Split(b + 1, m + 1)
    && Layout(code, b + 1, l)
    && code[m] == Jmp(m + 1 + ProgramLen(r))
    && Layout(code, m + 1, r)
  }

  predicate LayoutCat(code: Code, b: nat, l: Regex, r: Regex)
    decreases Cat(l, r), 0
  {
    Layout(code, b, l) && Layout(code, b + ProgramLen(l), r)
  }

  predicate LayoutParen(code: Code, b: nat, g: nat, r: Regex)
    decreases Paren(g, r), 0
  {
    var m := b + 1 + ProgramLen(r);
    m < |code| && code[b] == Save(2 * g) && Layout(code, b + 1, r) && code[m] == Save(2 * g + 1)
  }

  predicate LayoutQuest(code: Code, b: nat, r: Regex, greedy: bool)
    decreases Quest(r, greedy), 0
  {
    b < |code| && code[b] == Choice(greedy, b + 1, b + 1 + ProgramLen(r)) && Layout(code, b + 1, r)
  }

  predicate LayoutStar(code: Code, b: nat, r: Regex, greedy: bool)
    decreases Star(r, greedy), 0
  {
    var m := b + 1 + ProgramLen(r);
    m < |code| && code[b] == Choice(greedy, b + 1, m + 1) && Layout(code, b + 1, r) && code[m] == Jmp(b)
  }

  predicate LayoutPlus(code: Code, b: nat, r: Regex, greedy: bool)
    decreases Plus(r, greedy), 0
  {
    var m := b + ProgramLen(r);
    m < |code| && Layout(code, b, r) && code[m] == Choice(greedy, b, m + 1)
  }

  predicate LayoutToplevel(code: Code, b: nat, r: Regex, id: nat)
    decreases Toplevel(r, id), 0
  {
    var m := b + ProgramLen(r);
    m < |code| && Layout(code, b, r) && code[m] == Match(id)
  }

  /** Two buffers hold the same instructions from `lo` up to `hi`. */
  predicate Agree(code: Code, code': Code, lo: nat, hi: nat) {
    && lo <= hi <= |code| && hi <= |code'|
    && forall k :: lo <= k < hi ==> code'[k] == code[k]
  }

  /* What the code of a tree is made of, one lemma for each kind of node. */

  lemma UnfoldAlt(code: Code, b: nat, l: Regex, r: Regex)
    requires Layout(code, b, Alt(l, r))
    ensures ProgramLen(Alt(l, r)) == 2 + ProgramLen(l) + ProgramLen(r)
    ensures b + ProgramLen(Alt(l, r)) <= |code|
    ensures code[b] == Split(b + 1, b + 2 + ProgramLen(l))
    ensures code[b + 1 + ProgramLen(l)] == Jmp(b + ProgramLen(Alt(l, r)))
    ensures Layout(code, b + 1, l) && Layout(code, b + 2 + ProgramLen(l), r)
  {
    assert LayoutAlt(code, b, l, r);
  }

  lemma UnfoldCat(code: Code, b: nat, l: Regex, r: Regex)
    requires Layout(code, b, Cat(l, r))
    ensures ProgramLen(Cat(l, r)) == ProgramLen(l) + ProgramLen(r)
    ensures b + ProgramLen(Cat(l, r)) <= |code|
    ensures Layout(code, b, l) && Layout(code, b + ProgramLen(l), r)
  {
    assert LayoutCat(code, b, l, r);
  }

  lemma UnfoldParen(code: Code, b: nat, g: nat, r: Regex)
    requires Layout(code, b, Paren(g, r))
    ensures ProgramLen(Paren(g, r)) == 2 + ProgramLen(r)
    ensures b + ProgramLen(Paren(g, r)) <= |code|
    ensures code[b] == Save(2 * g) && Layout(code, b + 1, r) && code[b + 1 + ProgramLen(r)] == Save(2 * g + 1)
  {
    assert LayoutParen(code, b, g, r);
  }

  lemma UnfoldQuest(code: Code, b: nat, r: Regex, greedy: bool)
    requires Layout(code, b, Quest(r, greedy))
    ensures ProgramLen(Quest(r, greedy)) == 1 + ProgramLen(r)
    ensures b + ProgramLen(Quest(r, greedy)) <= |code|
    ensures code[b] == if greedy then Split(b + 1, b + 1 + ProgramLen(r)) else Split(b + 1 + ProgramLen(r), b + 1)
    ensures Layout(code, b + 1, r)
  {
    assert LayoutQuest(code, b, r, greedy);
  }

  lemma UnfoldStar(code: Code, b: nat, r: Regex, greedy: bool)
    requires Layout(code, b, Star(r, greedy))
    ensures ProgramLen(Star(r, greedy)) == 2 + ProgramLen(r)
    ensures b + ProgramLen(Star(r, greedy)) <= |code|
    ensures code[b] == if greedy then Split(b + 1, b + 2 + ProgramLen(r)) else Split(b + 2 + ProgramLen(r), b + 1)
    ensures Layout(code, b + 1, r) && code[b + 1 + ProgramLen(r)] == Jmp(b)
  {
    assert LayoutStar(code, b, r, greedy);
  }

  lemma UnfoldPlus(code: Code, b: nat, r: Regex, greedy: bool)
    requires Layout(code, b, Plus(r, greedy))
    ensures ProgramLen(Plus(r, greedy)) == 1 + ProgramLen(r)
    ensures b + ProgramLen(Plus(r, greedy)) <= |code|
    ensures var m := b + ProgramLen(r);
            code[m] == if greedy then Split(b, m + 1) else Split(m + 1, b)
    ensures Layout(code, b, r)
  {
    assert LayoutPlus(code, b, r, greedy);
  }

  lemma UnfoldToplevel(code: Code, b: nat, r: Regex, id: nat)
    requires Layout(code, b, Toplevel(r, id))
    ensures ProgramLen(Toplevel(r, id)) == 1 + ProgramLen(r)
    ensures b + ProgramLen(Toplevel(r, id)) <= |code|
    ensures Layout(code, b, r) && code[b + ProgramLen(r)] == Match(id)
  {
    assert LayoutToplevel(code, b, r, id);
  }

  predicate IsLeaf(re: Regex) {
    re.Lit? || re.Dot? || re.Class? || re.NClass? || re.Assert?
  }

  lemma UnfoldLeaf(code: Code, b: nat, re: Regex)
    requires Layout(code, b, re) && IsLeaf(re)
    ensures ProgramLen(re) == 1 && b < |code| && code[b] == LeafInst(re)
    ensures !code[b].Match? && !code[b].Save? && !code[b].Jmp? && !code[b].Split?
  {
  }

  lemma UnfoldNil(code: Code, b: nat)
    requires Layout(code, b, Nil)
    ensures ProgramLen(Nil) == 0 && b <= |code|
  {
  }

  /** What the code of a tree is made of is enough. */
  lemma Fold(code: Code, b: nat, re: Regex)
    requires b + ProgramLen(re) <= |code|
    requires re.Alt? ==> LayoutAlt(code, b, re.left, re.right)
    requires re.Cat? ==> LayoutCat(code, b, re.left, re.right)
    requires re.Paren? ==> LayoutParen(code, b, re.group, re.body)
    requires re.Quest? ==> LayoutQuest(code, b, re.body, re.greedy)
    requires re.Star? ==> LayoutStar(code, b, re.body, re.greedy)
    requires re.Plus? ==> LayoutPlus(code, b, re.body, re.greedy)
    requires re.Toplevel? ==> LayoutToplevel(code, b, re.body, re.id)
    requires IsLeaf(re) ==> b < |code| && code[b] == LeafInst(re)
    ensures Layout(code, b, re)
  {
    hide LayoutAlt, LayoutCat, LayoutParen, LayoutQuest, LayoutStar, LayoutPlus, LayoutToplevel, ProgramLen;
  }

  /** Only the fragment itself matters. */
  lemma {:induction false} LayoutFrame(code: Code, code': Code, b: nat, re: Regex, lo: nat, hi: nat)
    requires Layout(code, b, re)
    requires Agree(code, code', lo, hi) && lo <= b && b + ProgramLen(re) <= hi
    ensures Layout(code', b, re)
    decreases re, 1
  {
    hide Layout, ProgramLen;
    match re {
      case Nil => UnfoldNil(code, b);
      case Alt(l, r) => LayoutAltFrame(code, code', b, l, r, lo, hi);
      case Cat(l, r) =>
        UnfoldCat(code, b, l, r);
        LayoutFrame(code, code', b, l, lo, hi);
        LayoutFrame(code, code', b + ProgramLen(l), r, lo, hi);
      case Paren(g, r) =>
        UnfoldParen(code, b, g, r);
        LayoutFrame(code, code', b + 1, r, lo, hi);
      case Quest(r, greedy) =>
        UnfoldQuest(code, b, r, greedy);
        LayoutFrame(code, code', b + 1, r, lo, hi);
      case Star(r, greedy) =>
        UnfoldStar(code, b, r, greedy);
        LayoutFrame(code, code', b + 1, r, lo, hi);
      case Plus(r, greedy) =>
        UnfoldPlus(code, b, r, greedy);
        LayoutFrame(code, code', b, r, lo, hi);
      case Toplevel(r, id) =>
        UnfoldToplevel(code, b, r, id);
        LayoutFrame(code, code', b, r, lo, hi);
      case _ => UnfoldLeaf(code, b, re);
    }
    Fold(code', b, re);
  }

  lemma {:induction false} LayoutAltFrame(code: Code, code': Code, b: nat, l: Regex, r: Regex, lo: nat, hi: nat)
    requires Layout(code, b, Alt(l, r))
    requires Agree(code, code', lo, hi) && lo <= b && b + ProgramLen(Alt(l, r)) <= hi
    ensures LayoutAlt(code', b, l, r)
    decreases Alt(l, r), 0
  {
    hide Layout, ProgramLen;
    UnfoldAlt(code, b, l, r);
    LayoutFrame(code, code', b + 1, l, lo, hi);
    LayoutFrame(code, code', b + 2 + ProgramLen(l), r, lo, hi);
  }

  /** A tree has one code: every instruction is fixed by the tree and the index. */
  lemma {:induction false} LayoutUnique(code: Code, code': Code, b: nat, re: Regex)
    requires Layout(code, b, re) && Layout(code', b, re)
    ensures b + ProgramLen(re) <= |code| && b + ProgramLen(re) <= |code'|
    ensures forall k :: b <= k < b + ProgramLen(re) ==> code[k] == code'[k]
    decreases re
  {
    hide Layout, ProgramLen, LeafInst;
    match re
    case Nil => UnfoldNil(code, b); UnfoldNil(code', b);
    case Alt(l, r) =>
      UnfoldAlt(code, b, l, r);
      UnfoldAlt(code', b, l, r);
      LayoutUnique(code, code', b + 1, l);
      LayoutUnique(code, code', b + 2 + ProgramLen(l), r);
    case Cat(l, r) =>
      UnfoldCat(code, b, l, r);
      UnfoldCat(code', b, l, r);
      LayoutUnique(code, code', b, l);
      LayoutUnique(code, code', b + ProgramLen(l), r);
    case Paren(g, r) =>
      UnfoldParen(code, b, g, r);
      UnfoldParen(code', b, g, r);
      LayoutUnique(code, code', b + 1, r);
    case Quest(r, greedy) =>
      UnfoldQuest(code, b, r, greedy);
      UnfoldQuest(code', b, r, greedy);
      LayoutUnique(code, code', b + 1, r);
    case Star(r, greedy) =>
      UnfoldStar(code, b, r, greedy);
      UnfoldStar(code', b, r, greedy);
      LayoutUnique(code, code', b + 1, r);
    case Plus(r, greedy) =>
      UnfoldPlus(code, b, r, greedy);
      UnfoldPlus(code', b, r, greedy);
      LayoutUnique(code, code', b, r);
    case Toplevel(r, id) =>
      UnfoldToplevel(code, b, r, id);
      UnfoldToplevel(code', b, r, id);
      LayoutUnique(code, code', b, r);
    case _ =>
      UnfoldLeaf(code, b, re);
      UnfoldLeaf(code', b, re);
  }

  /** Emission fills the buffer from `start`, patches jump and split targets
      once they are known, swaps the arms of non-greedy operators, and returns
      the index after the last instruction written. */
  method EmitBytecode(buf: array<Inst>, start: nat, re: Regex) returns (pc: nat)
    requires start + ProgramLen(re) <= buf.Length
    modifies buf
    ensures pc == start + ProgramLen(re)
    ensures Layout(buf[..], start, re)
    ensures Agree(old(buf[..]), buf[..], 0, start) && Agree(old(buf[..]), buf[..], pc, buf.Length)
    decreases re, 1
  {
    match re
    case Nil => pc := start;
    case Alt(l, r) => pc := EmitAlt(buf, start, l, r);
    case Cat(l, r) => pc := EmitCat(buf, start, l, r);
    case Paren(g, r) => pc := EmitParen(buf, start, g, r);
    case Quest(r, greedy) => pc := EmitQuest(buf, start, r, greedy);
    case Star(r, greedy) => pc := EmitStar(buf, start, r, greedy);
    case Plus(r, greedy) => pc := EmitPlus(buf, start, r, greedy);
    case Toplevel(r, id) => pc := EmitToplevel(buf, start, r, id);
    case _ =>
      buf[start] := LeafInst(re);
      pc := start + 1;
  }

  method EmitAlt(buf: array<Inst>, start: nat, l: Regex, r: Regex) returns (pc: nat)
    requires start + ProgramLen(Alt(l, r)) <= buf.Length
    modifies buf
    ensures pc == start + ProgramLen(Alt(l, r))
    ensures LayoutAlt(buf[..], start, l, r)
    ensures Agree(old(buf[..]), buf[..], 0, start) && Agree(old(buf[..]), buf[..], pc, buf.Length)
    decreases Alt(l, r), 0
  {
    hide Layout, LayoutAlt, ProgramLen;
    AltLen(l, r);
    buf[start] := Split(start + 1, 0);
    ghost var entry := buf[..];
    var p2 := EmitBytecode(buf, start + 1, l);
    ghost var left := buf[..];
    buf[p2] := Jmp(0);
    buf[start] := buf[start].(y := p2 + 1);
    ghost var patched := buf[..];
    pc := EmitBytecode(buf, p2 + 1, r);
    ghost var right := buf[..];
    buf[p2] := Jmp(pc);
    AltFrame(old(buf[..]), entry, left, right, start, l, r);
  }

  lemma CatLen(l: Regex, r: Regex)
    ensures ProgramLen(Cat(l, r)) == ProgramLen(l) + ProgramLen(r)
  {
  }

  method EmitCat(buf: array<Inst>, start: nat, l: Regex, r: Regex) returns (pc: nat)
    requires start + ProgramLen(Cat(l, r)) <= buf.Length
    modifies buf
    ensures pc == start + ProgramLen(Cat(l, r))
    ensures LayoutCat(buf[..], start, l, r)
    ensures Agree(old(buf[..]), buf[..], 0, start) && Agree(old(buf[..]), buf[..], pc, buf.Length)
    decreases Cat(l, r), 0
  {
    hide Layout, LayoutCat, Agree;
    CatLen(l, r);
    pc := EmitBytecode(buf, start, l);
    ghost var left := buf[..];
    pc := EmitBytecode(buf, pc, r);
    CatFrame(old(buf[..]), left, buf[..], start, l, r);
  }

  method EmitParen(buf: array<Inst>, start: nat, g: nat, r: Regex) returns (pc: nat)
    requires start + ProgramLen(Paren(g, r)) <= buf.Length
    modifies buf
    ensures pc == start + ProgramLen(Paren(g, r))
    ensures LayoutParen(buf[..], start, g, r)
    ensures Agree(old(buf[..]), buf[..], 0, start) && Agree(old(buf[..]), buf[..], pc, buf.Length)
    decreases Paren(g, r), 0
  {
    buf[start] := Save(2 * g);
    pc := EmitBytecode(buf, start + 1, r);
    ghost var body := buf[..];
    buf[pc] := Save(2 * g + 1);
    LayoutFrame(body, buf[..], start + 1, r, 0, pc);
    pc := pc + 1;
  }

  /** Exchanges the two targets of a SPLIT. */
  method SwapArms(buf: array<Inst>, p: nat)
    requires p < buf.Length && buf[p].Split?
    modifies buf
    ensures buf[..] == old(buf[..])[p := Split(old(buf[p]).y, old(buf[p]).x)]
  {
    var t := buf[p].x;
    buf[p] := buf[p].(x := buf[p].y);
    buf[p] := buf[p].(y := t);
  }

  lemma AgreeAt(code: Code, code': Code, lo: nat, hi: nat, k: nat)
    requires Agree(code, code', lo, hi) && lo <= k < hi
    ensures code'[k] == code[k]
  {
  }

  lemma LoopLen(r: Regex, greedy: bool)
    ensures ProgramLen(Quest(r, greedy)) == 1 + ProgramLen(r) && ProgramLen(Star(r, greedy)) == 2 + ProgramLen(r)
  {
  }

  method EmitQuest(buf: array<Inst>, start: nat, r: Regex, greedy: bool) returns (pc: nat)
    requires start + ProgramLen(Quest(r, greedy)) <= buf.Length
    modifies buf
    ensures pc == start + ProgramLen(Quest(r, greedy))
    ensures LayoutQuest(buf[..], start, r, greedy)
    ensures Agree(old(buf[..]), buf[..], 0, start) && Agree(old(buf[..]), buf[..], pc, buf.Length)
    decreases Quest(r, greedy), 0
  {
    hide Layout, LayoutQuest, Agree, ProgramLen;
    LoopLen(r, greedy);
    buf[start] := Split(start + 1, 0);
    ghost var entry := buf[..];
    pc := EmitBytecode(buf, start + 1, r);
    ghost var body := buf[..];
    AgreeAt(entry, body, 0, start + 1, start);
    buf[start] := buf[start].(y := pc);
    if !greedy { SwapArms(buf, start); }
    QuestFrame(old(buf[..]), entry, body, start, r, greedy);
    assert buf[..] == body[start := Choice(greedy, start + 1, pc)];
  }

  /** The code around the body of an option, and around that of a loop. */
  lemma QuestFrame(before: Code, entry: Code, body: Code, start: nat, r: Regex, greedy: bool)
    requires start + 1 + ProgramLen(r) <= |before| == |body| && entry == before[start := Split(start + 1, 0)]
    requires Agree(entry, body, 0, start + 1) && Agree(entry, body, start + 1 + ProgramLen(r), |body|)
             && Layout(body, start + 1, r)
    ensures var code, pc := body[start := Choice(greedy, start + 1, start + 1 + ProgramLen(r))],
            start + 1 + ProgramLen(r);
            LayoutQuest(code, start, r, greedy) && Agree(before, code, 0, start) && Agree(before, code, pc, |code|)
  {
    hide Layout, ProgramLen, Choice;
    LayoutFrame(body, body[start := Choice(greedy, start + 1, start + 1 + ProgramLen(r))], start + 1, r, start + 1,
                start + 1 + ProgramLen(r));
  }

  method EmitStar(buf: array<Inst>, start: nat, r: Regex, greedy: bool) returns (pc: nat)
    requires start + ProgramLen(Star(r, greedy)) <= buf.Length
    modifies buf
    ensures pc == start + ProgramLen(Star(r, greedy))
    ensures LayoutStar(buf[..], start, r, greedy)
    ensures Agree(old(buf[..]), buf[..], 0, start) && Agree(old(buf[..]), buf[..], pc, buf.Length)
    decreases Star(r, greedy), 0
  {
    hide Layout, LayoutStar, Agree, ProgramLen;
    LoopLen(r, greedy);
    buf[start] := Split(start + 1, 0);
    ghost var entry := buf[..];
    pc := EmitBytecode(buf, start + 1, r);
    ghost var body := buf[..];
    AgreeAt(entry, body, 0, start + 1, start);
    buf[pc] := Jmp(start);
    pc := pc + 1;
    buf[start] := buf[start].(y := pc);
    if !greedy { SwapArms(buf, start); }
    StarFrame(old(buf[..]), entry, body, start, r, greedy);
    assert buf[..] == body[pc - 1 := Jmp(start)][start := Choice(greedy, start + 1, pc)];
  }

  lemma StarFrame(before: Code, entry: Code, body: Code, start: nat, r: Regex, greedy: bool)
    requires start + 2 + ProgramLen(r) <= |before| == |body| && entry == before[start := Split(start + 1, 0)]
    requires Agree(entry, body, 0, start + 1) && Agree(entry, body, start + 1 + ProgramLen(r), |body|)
             && Layout(body, start + 1, r)
    ensures var m := start + 1 + ProgramLen(r);
            var code := body[m := Jmp(start)][start := Choice(greedy, start + 1, m + 1)];
            LayoutStar(code, start, r, greedy) && Agree(before, code, 0, start) && Agree(before, code, m + 1, |code|)
  {
    hide Layout, ProgramLen, Choice;
    var m := start + 1 + ProgramLen(r);
    LayoutFrame(body, body[m := Jmp(start)][start := Choice(greedy, start + 1, m + 1)], start + 1, r, start + 1, m);
  }

  method EmitPlus(buf: array<Inst>, start: nat, r: Regex, greedy: bool) returns (pc: nat)
    requires start + ProgramLen(Plus(r, greedy)) <= buf.Length
    modifies buf
    ensures pc == start + ProgramLen(Plus(r, greedy))
    ensures LayoutPlus(buf[..], start, r, greedy)
    ensures Agree(old(buf[..]), buf[..], 0, start) && Agree(old(buf[..]), buf[..], pc, buf.Length)
    decreases Plus(r, greedy), 0
  {
    pc := EmitBytecode(buf, start, r);
    ghost var body := buf[..];
    var p2 := pc;
    buf[p2] := Split(start, 0);
    pc := pc + 1;
    buf[p2] := buf[p2].(y := pc);
    if !greedy { SwapArms(buf, p2); }
    LayoutFrame(body, buf[..], start, r, 0, p2);
  }

  method EmitToplevel(buf: array<Inst>, start: nat, r: Regex, id: nat) returns (pc: nat)
    requires start + ProgramLen(Toplevel(r, id)) <= buf.Length
    modifies buf
    ensures pc == start + ProgramLen(Toplevel(r, id))
    ensures LayoutToplevel(buf[..], start, r, id)
    ensures Agree(old(buf[..]), buf[..], 0, start) && Agree(old(buf[..]), buf[..], pc, buf.Length)
    decreases Toplevel(r, id), 0
  {
    pc := EmitBytecode(buf, start, r);
    ghost var body := buf[..];
    buf[pc] := Match(id);
    LayoutFrame(body, buf[..], start, r, 0, pc);
    pc := pc + 1;
  }

  /** Emitting the right half keeps the left half and what precedes both. */
  lemma CatFrame(before: Code, left: Code, code: Code, start: nat, l: Regex, r: Regex)
    requires |before| == |left| == |code|
    requires Layout(left, start, l) && Layout(code, start + ProgramLen(l), r)
    requires Agree(before, left, 0, start) && Agree(left, code, 0, start + ProgramLen(l))
    requires Agree(before, left, start + ProgramLen(l), |code|)
    requires Agree(left, code, start + ProgramLen(l) + ProgramLen(r), |code|)
    ensures LayoutCat(code, start, l, r)
    ensures Agree(before, code, 0, start) && Agree(before, code, start + ProgramLen(Cat(l, r)), |code|)
  {
    LayoutFrame(left, code, start, l, 0, start + ProgramLen(l));
  }

  lemma AltLen(l: Regex, r: Regex)
    ensures ProgramLen(Alt(l, r)) == 2 + ProgramLen(l) + ProgramLen(r)
  {
  }

  lemma AltFrame(before: Code, entry: Code, left: Code, right: Code, start: nat, l: Regex, r: Regex)
    requires |before| == |left| == |right| && start < |before|
    requires start + ProgramLen(Alt(l, r)) <= |before|
    requires entry == before[start := Split(start + 1, 0)]
    requires Layout(left, start + 1, l)
    requires Agree(entry, left, 0, start + 1) && Agree(entry, left, start + 1 + ProgramLen(l), |left|)
    requires var p2 := start + 1 + ProgramLen(l);
             var patched := left[p2 := Jmp(0)][start := Split(start + 1, p2 + 1)];
             Agree(patched, right, 0, p2 + 1) && Agree(patched, right, p2 + 1 + ProgramLen(r), |right|)
    requires Layout(right, start + 2 + ProgramLen(l), r)
    ensures var pc := start + ProgramLen(Alt(l, r));
            var code := right[start + 1 + ProgramLen(l) := Jmp(pc)];
            LayoutAlt(code, start, l, r) && Agree(before, code, 0, start) && Agree(before, code, pc, |code|)
  {
    hide Layout, ProgramLen;
    AltLen(l, r);
    var p2 := start + 1 + ProgramLen(l);
    var code := right[p2 := Jmp(start + ProgramLen(Alt(l, r)))];
    LayoutFrame(left, code, start + 1, l, start + 1, p2);
    LayoutFrame(right, code, p2 + 1, r, p2 + 1, start + ProgramLen(Alt(l, r)));
  }

  lemma {:induction false} LayoutWithin(code: Code, b: nat, re: Regex, lo: nat, hi: nat)
    requires Layout(code, b, re)
    requires lo <= b && b + ProgramLen(re) <= hi
    ensures b + ProgramLen(re) <= |code|
    ensures forall pc :: b <= pc < b + ProgramLen(re) ==> StaysIn(code[pc], pc, lo, hi)
    decreases re
  {
    hide Layout, ProgramLen;
    match re
    case Nil => UnfoldNil(code, b);
    case Alt(l, r) =>
      UnfoldAlt(code, b, l, r);
      LayoutWithin(code, b + 1, l, lo, hi);
      LayoutWithin(code, b + 2 + ProgramLen(l), r, lo, hi);
    case Cat(l, r) =>
      UnfoldCat(code, b, l, r);
      LayoutWithin(code, b, l, lo, hi);
      LayoutWithin(code, b + ProgramLen(l), r, lo, hi);
    case Paren(g, r) =>
      UnfoldParen(code, b, g, r);
      LayoutWithin(code, b + 1, r, lo, hi);
    case Quest(r, greedy) =>
      UnfoldQuest(code, b, r, greedy);
      LayoutWithin(code, b + 1, r, lo, hi);
    case Star(r, greedy) =>
      UnfoldStar(code, b, r, greedy);
      LayoutWithin(code, b + 1, r, lo, hi);
    case Plus(r, greedy) =>
      UnfoldPlus(code, b, r, greedy);
      LayoutWithin(code, b, r, lo, hi);
    case Toplevel(r, id) =>
      UnfoldToplevel(code, b, r, id);
      LayoutWithin(code, b, r, lo, hi);
    case _ => UnfoldLeaf(code, b, re);
  }

  /** The code of any tree can only be left through its end. */
  lemma LayoutClosed(code: Code, b: nat, re: Regex)
    requires Layout(code, b, re)
    ensures Closed(code, b, b + ProgramLen(re))
  {
    LayoutWithin(code, b, re, b, b + ProgramLen(re));
  }
}
