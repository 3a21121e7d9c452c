/**
  Relocating a compiled function's opcodes next to its copied literals (src/copy.c).
  A constant operand is either the address of a literal or a 32-bit offset from its own
  opcode; a jump is either the address of an opcode or an offset.  Addresses are integers.
  */
module Opcodes {
  datatype Opcode =
    | Jmp | FastCall | JmpZNZ | JmpZ | JmpNZ | JmpZEx | JmpNZEx | JmpSet | Coalesce
    | FeResetR | FeResetRW | AssertCheck | JmpNull | BindInitStaticOrJmp | JmpFrameless
    | Catch | FeFetchR | FeFetchRW | SwitchLong | SwitchString | Match | Other(code: nat)

  datatype Operand = Operand(isConst: bool, word: int)

  datatype Op = Op(opcode: Opcode, op1: Operand, op2: Operand, result: Operand, extended: nat, lineno: nat)

  /** What the build fixes: the size of an opcode, the two addressing modes, the PHP version. */
  datatype Build = Build(wide: bool, absConst: bool, absJmp: bool, php: nat)

  datatype OpArray = OpArray(ops: seq<Op>, opcodesAt: int, literalsAt: int, literals: nat, passTwo: bool)

  /** Where a copy puts the opcodes and the literals. */
  datatype Layout = Layout(opcodesAt: int, literalsAt: int)

  const TWO31: int := 0x8000_0000
  const TWO32: int := 0x1_0000_0000
  const ZVAL_SIZE: int := 16

  function OpBytes(t: Build, i: int): int { if t.wide then 32 * i else 28 * i }

  function OpIndex(t: Build, bytes: int): int { if t.wide then bytes / 32 else bytes / 28 }

  /** The (int32_t) cast of an unsigned operand word. */
  function Signed32(w: int): int { if w >= TWO31 then w - TWO32 else w }

  /** Storing an integer into an unsigned 32-bit operand word. */
  function Wrap32(x: int): int { x % TWO32 }

  predicate IsWord32(w: int) { 0 <= w < TWO32 }

  predicate IsOffset32(x: int) { -TWO31 <= x < TWO31 }

  // ---------------------------------------------------------------- what operands mean to the engine

  datatype Which = First | Second | Neither

  predicate LastCatch(op: Op) { op.extended % 2 == 1 }

  /** The operand that is a jump target. */
  function JumpOperand(t: Build, op: Op): Which {
    match op.opcode
    case Jmp => First
    case FastCall => First
    case JmpZNZ => if t.php < 80200 then Second else Neither
    case BindInitStaticOrJmp => if t.php >= 80300 then Second else Neither
    case JmpFrameless => if t.php >= 80400 then Second else Neither
    case Catch => if LastCatch(op) then Neither else Second
    case FeFetchR => Neither
    case FeFetchRW => Neither
    case SwitchLong => Neither
    case SwitchString => Neither
    case Match => Neither
    case Other(_) => Neither
    case _ => Second
  }

  /** The engine's own table, by operand and by the version that has the opcode. */
  lemma JumpTable(t: Build, op: Op)
    ensures JumpOperand(t, op) == First <==> op.opcode in {Jmp, FastCall}
    ensures JumpOperand(t, op) == Second <==>
              || op.opcode in {JmpZ, JmpNZ, JmpZEx, JmpNZEx, JmpSet, Coalesce, FeResetR, FeResetRW}
              || op.opcode in {AssertCheck, JmpNull}
              || (op.opcode == JmpZNZ && t.php < 80200) || (op.opcode == BindInitStaticOrJmp && t.php >= 80300)
              || (op.opcode == JmpFrameless && t.php >= 80400) || (op.opcode == Catch && !LastCatch(op))
  {
  }

  /** These also hold an offset from their own opcode in the extended value. */
  predicate ExtendedJump(t: Build, op: Op) {
    op.opcode in {FeFetchR, FeFetchRW, SwitchLong, SwitchString, Match} || (op.opcode == JmpZNZ && t.php < 80200)
  }

  /** Where a constant operand points once the second compiler pass is done. */
  function ConstAddress(t: Build, a: OpArray, i: int, w: int): int {
    if t.absConst then w else a.opcodesAt + OpBytes(t, i) + Signed32(w)
  }

  /** Before the second compiler pass a constant is the number of a literal. */
  function LiteralIndex(t: Build, a: OpArray, i: int, w: int): int {
    if a.passTwo then (ConstAddress(t, a, i, w) - a.literalsAt) / ZVAL_SIZE else w
  }

  /** Before the second compiler pass a jump is the number of an opcode. */
  function JumpIndex(t: Build, a: OpArray, i: int, w: int): int {
    if !a.passTwo then w
    else if t.absJmp then OpIndex(t, w - a.opcodesAt)
    else OpIndex(t, OpBytes(t, i) + Signed32(w))
  }

  datatype Sense = Literal(index: int) | Target(index: int) | Raw(word: int)

  datatype OpSense = OpSense(opcode: Opcode, op1: Sense, op2: Sense, result: Operand, extended: Sense, lineno: nat)

  function OperandSense(t: Build, a: OpArray, i: int, o: Operand, jump: bool): Sense {
    if o.isConst then Literal(LiteralIndex(t, a, i, o.word))
    else if jump then Target(JumpIndex(t, a, i, o.word))
    else Raw(o.word)
  }

  function SenseOf(t: Build, a: OpArray, i: nat): OpSense
    requires i < |a.ops|
  {
    var op := a.ops[i];
    OpSense(op.opcode,
            OperandSense(t, a, i, op.op1, JumpOperand(t, op) == First),
            OperandSense(t, a, i, op.op2, JumpOperand(t, op) == Second),
            op.result,
            if ExtendedJump(t, op) && a.passTwo
            then Target(OpIndex(t, OpBytes(t, i) + Signed32(op.extended)))
            else Raw(op.extended),
            op.lineno)
  }

  /** The function as the engine runs it: nothing in it depends on where it is stored. */
  function Meaning(t: Build, a: OpArray): (m: seq<OpSense>)
    ensures |m| == |a.ops|
  {
    seq(|a.ops|, i requires 0 <= i < |a.ops| => SenseOf(t, a, i))
  }

  // ---------------------------------------------------------------- op arrays the compiler makes

  predicate ConstOk(t: Build, a: OpArray, i: int, w: int) {
    var k := LiteralIndex(t, a, i, w);
    && 0 <= k < a.literals && (!t.absConst ==> IsWord32(w))
    && (a.passTwo ==> ConstAddress(t, a, i, w) == a.literalsAt + ZVAL_SIZE * k)
  }

  predicate JumpOk(t: Build, a: OpArray, i: int, w: int) {
    var k := JumpIndex(t, a, i, w);
    && 0 <= k < |a.ops|
    && (a.passTwo && t.absJmp ==> w == a.opcodesAt + OpBytes(t, k))
  }

  predicate OperandOk(t: Build, a: OpArray, i: int, o: Operand, jump: bool) {
    && (o.isConst ==> !jump && ConstOk(t, a, i, o.word))
    && (jump ==> JumpOk(t, a, i, o.word))
  }

  predicate OpOk(t: Build, a: OpArray, i: nat)
    requires i < |a.ops|
  {
    var op := a.ops[i];
    && OperandOk(t, a, i, op.op1, JumpOperand(t, op) == First)
    && OperandOk(t, a, i, op.op2, JumpOperand(t, op) == Second)
  }

  predicate WellFormed(t: Build, a: OpArray) {
    forall i :: 0 <= i < |a.ops| ==> OpOk(t, a, i)
  }

  // ---------------------------------------------------------------- the rewriting of one operand

  /** The code takes every constant for an address or an offset, pass two done or not. */
  function RebasedConst(t: Build, a: OpArray, to: Layout, i: int, w: int): int {
    if t.absConst then w + (to.literalsAt - a.literalsAt)
    else Wrap32(NewOffset(t, a, to, i, w))
  }

  /** The distance from the copied opcode to the copy of what the operand is taken to point to.
      A difference of literal pointers rounds down to whole literals. */
  function NewOffset(t: Build, a: OpArray, to: Layout, i: int, w: int): int {
    to.literalsAt + ZVAL_SIZE * ((ConstAddress(t, a, i, w) - a.literalsAt) / ZVAL_SIZE) - (to.opcodesAt + OpBytes(t, i))
  }

  function RebasedJump(t: Build, a: OpArray, to: Layout, w: int): int {
    to.opcodesAt + OpBytes(t, OpIndex(t, w - a.opcodesAt))
  }

  function RebasedOperand(t: Build, a: OpArray, to: Layout, i: int, o: Operand, jump: bool): Operand {
    var o := if o.isConst then o.(word := RebasedConst(t, a, to, i, o.word)) else o;
    if jump && t.absJmp && a.passTwo then o.(word := RebasedJump(t, a, to, o.word)) else o
  }

  function RebasedOp(t: Build, a: OpArray, to: Layout, i: int, op: Op): Op {
    op.(op1 := RebasedOperand(t, a, to, i, op.op1, JumpOperand(t, op) == First),
        op2 := RebasedOperand(t, a, to, i, op.op2, JumpOperand(t, op) == Second))
  }

  function Copied(t: Build, a: OpArray, to: Layout): (c: OpArray)
    ensures |c.ops| == |a.ops|
  {
    OpArray(seq(|a.ops|, i requires 0 <= i < |a.ops| => RebasedOp(t, a, to, i, a.ops[i])),
            to.opcodesAt, to.literalsAt, a.literals, a.passTwo)
  }

  /** pmmpthread_copy_opcodes: the whole block is copied, then patched opcode by opcode. */
  method CopyOpcodes(t: Build, a: OpArray, to: Layout, copy: array<Op>)
    requires copy.Length == |a.ops|
    modifies copy
    ensures copy[..] == Copied(t, a, to).ops
  {
    forall i | 0 <= i < |a.ops| { copy[i] := a.ops[i]; }
    for i := 0 to copy.Length
      invariant forall j :: 0 <= j < i ==> copy[j] == RebasedOp(t, a, to, j, a.ops[j])
      invariant forall j :: i <= j < copy.Length ==> copy[j] == a.ops[j]
    {
      copy[i] := PatchOpcode(t, a, to, i, copy[i]);
    }
  }

  /** The body of the loop, in the order of the source: constants first, then jumps. */
  method PatchOpcode(t: Build, a: OpArray, to: Layout, i: nat, original: Op) returns (op: Op)
    ensures op == RebasedOp(t, a, to, i, original)
  {
    op := original;
    if op.op1.isConst { op := op.(op1 := op.op1.(word := RebasedConst(t, a, to, i, op.op1.word))); }
    if op.op2.isConst { op := op.(op2 := op.op2.(word := RebasedConst(t, a, to, i, op.op2.word))); }
    if t.absJmp && a.passTwo {
      if op.opcode == Jmp || op.opcode == FastCall {
        op := op.(op1 := op.op1.(word := RebasedJump(t, a, to, op.op1.word)));
      } else if (op.opcode == JmpZNZ && t.php < 80200)
        || op.opcode == JmpZ || op.opcode == JmpNZ || op.opcode == JmpZEx || op.opcode == JmpNZEx
        || op.opcode == JmpSet || op.opcode == Coalesce || op.opcode == FeResetR || op.opcode == FeResetRW
        || op.opcode == AssertCheck || op.opcode == JmpNull
        || (op.opcode == BindInitStaticOrJmp && t.php >= 80300)
        || (op.opcode == JmpFrameless && t.php >= 80400) {
        op := op.(op2 := op.op2.(word := RebasedJump(t, a, to, op.op2.word)));
      } else if op.opcode == Catch && !LastCatch(op) {
        op := op.(op2 := op.op2.(word := RebasedJump(t, a, to, op.op2.word)));
      }
    }
  }

  // ---------------------------------------------------------------- one operand keeps its meaning

  /** How much further from the opcodes the copied literals are than the original ones. */
  function Drift(a: OpArray, to: Layout): int { (to.literalsAt - to.opcodesAt) - (a.literalsAt - a.opcodesAt) }

  /** How far an operand, read as an offset, lands behind the start of a literal. */
  function Overhang(t: Build, a: OpArray, i: int, w: int): int {
    (ConstAddress(t, a, i, w) - a.literalsAt) % ZVAL_SIZE
  }

  /** The condition on a constant: within reach after pass two; before it, the rewriting must change nothing. */
  predicate ConstFits(t: Build, a: OpArray, to: Layout, i: int, o: Operand) {
    o.isConst ==>
      if a.passTwo then t.absConst || IsOffset32(NewOffset(t, a, to, i, o.word))
      else if t.absConst then to.literalsAt == a.literalsAt
      else (Drift(a, to) - Overhang(t, a, i, o.word)) % TWO32 == 0
  }

  lemma WrapRoundTrip(x: int)
    ensures IsWord32(Wrap32(x))
    ensures Signed32(Wrap32(x)) == x <==> IsOffset32(x)
    ensures exists m: int :: Signed32(Wrap32(x)) == x - TWO32 * m
  {
    var q := x / TWO32;
    var m := if Wrap32(x) >= TWO31 then q + 1 else q;
    assert x == q * TWO32 + Wrap32(x);
    assert Signed32(Wrap32(x)) == x - TWO32 * m;
  }

  /** Two integers are stored as the same word exactly if they differ by a multiple of the word. */
  lemma WrapEqual(x: int, y: int)
    ensures Wrap32(x) == Wrap32(y) <==> (x - y) % TWO32 == 0
  {
    var q, p := x / TWO32, y / TWO32;
    assert x - y == TWO32 * (q - p) + (Wrap32(x) - Wrap32(y));
  }

  /** After pass two exactly the constants whose new offset fits 32 signed bits still reach their literal. */
  lemma PassedConstIff(t: Build, a: OpArray, to: Layout, i: int, o: Operand)
    requires o.isConst && a.passTwo && ConstOk(t, a, i, o.word)
    ensures var c := Copied(t, a, to); var w := RebasedConst(t, a, to, i, o.word);
            && (LiteralIndex(t, c, i, w) == LiteralIndex(t, a, i, o.word) <==> ConstFits(t, a, to, i, o))
            && (ConstFits(t, a, to, i, o) ==> ConstOk(t, c, i, w))
  {
    var c := Copied(t, a, to);
    var w := RebasedConst(t, a, to, i, o.word);
    var k := LiteralIndex(t, a, i, o.word);
    if !t.absConst {
      var x := NewOffset(t, a, to, i, o.word);
      WrapRoundTrip(x);
      var m: int :| Signed32(w) == x - TWO32 * m;
      assert ConstAddress(t, c, i, w) == to.literalsAt + ZVAL_SIZE * (k - 0x1000_0000 * m);
      assert LiteralIndex(t, c, i, w) == k - 0x1000_0000 * m;
    }
  }

  /** Before pass two exactly the literal numbers the rewriting happens to leave alone survive. */
  lemma UnpassedConstIff(t: Build, a: OpArray, to: Layout, i: int, o: Operand)
    requires o.isConst && !a.passTwo && ConstOk(t, a, i, o.word)
    ensures RebasedConst(t, a, to, i, o.word) == o.word <==> ConstFits(t, a, to, i, o)
  {
    if !t.absConst {
      var w := o.word;
      var x := NewOffset(t, a, to, i, w);
      var d := ConstAddress(t, a, i, w) - a.literalsAt;
      assert d == ZVAL_SIZE * (d / ZVAL_SIZE) + Overhang(t, a, i, w);
      assert x - Signed32(w) == Drift(a, to) - Overhang(t, a, i, w);
      WrapEqual(x, Signed32(w));
      assert Wrap32(Signed32(w)) == w;
    }
  }

  lemma ConstKeptIff(t: Build, a: OpArray, to: Layout, i: int, o: Operand)
    requires o.isConst && ConstOk(t, a, i, o.word)
    ensures var c := Copied(t, a, to); var w := RebasedConst(t, a, to, i, o.word);
            && (LiteralIndex(t, c, i, w) == LiteralIndex(t, a, i, o.word) <==> ConstFits(t, a, to, i, o))
            && (ConstFits(t, a, to, i, o) ==> ConstOk(t, c, i, w))
  {
    if a.passTwo { PassedConstIff(t, a, to, i, o); } else { UnpassedConstIff(t, a, to, i, o); }
  }

  /** Blocks aligned as the allocator aligns them, on a build with 32-byte opcodes and relative constants. */
  predicate AlignedBlocks(t: Build, a: OpArray, to: Layout) {
    && t.wide && !t.absConst
    && a.opcodesAt % 16 == 0 && a.literalsAt % 16 == 0 && to.opcodesAt % 16 == 0 && to.literalsAt % 16 == 0
  }

  /** There a literal number survives exactly if it is a multiple of 16 and the literals keep their
      distance from the opcodes (up to the wrap-around of an offset). */
  lemma AlignedUnpassedIff(t: Build, a: OpArray, to: Layout, i: int, o: Operand)
    requires o.isConst && !a.passTwo && ConstOk(t, a, i, o.word) && AlignedBlocks(t, a, to)
    ensures RebasedConst(t, a, to, i, o.word) == o.word <==> o.word % 16 == 0 && Drift(a, to) % TWO32 == 0
  {
    UnpassedConstIff(t, a, to, i, o);
    OverhangOfNumber(t, a, to, i, o.word);
    var d, h := Drift(a, to), o.word % 16;
    if (d - h) % TWO32 == 0 {
      var q := (d - h) / TWO32;
      assert d == TWO32 * q + h;
      assert d % 16 == h;
    }
  }

  lemma OverhangOfNumber(t: Build, a: OpArray, to: Layout, i: int, w: int)
    requires AlignedBlocks(t, a, to)
    ensures Overhang(t, a, i, w) == w % 16 && Drift(a, to) % 16 == 0
  {
    var p, q := a.opcodesAt / 16, a.literalsAt / 16;
    var s := if w >= TWO31 then 0x1000_0000 else 0;
    assert ConstAddress(t, a, i, w) - a.literalsAt == 16 * (p + 2 * i - s - q) + w;
    WholeLiterals(p + 2 * i - s - q, w);
    var u, v := to.opcodesAt / 16, to.literalsAt / 16;
    assert Drift(a, to) == 16 * ((v - u) - (q - p)) + 0;
    WholeLiterals((v - u) - (q - p), 0);
  }

  lemma WholeLiterals(n: int, rest: int)
    ensures (16 * n + rest) % 16 == rest % 16
  {
    var d := rest / 16;
    assert 16 * n + rest == 16 * (n + d) + rest % 16;
  }

  lemma JumpKept(t: Build, a: OpArray, to: Layout, i: int, w: int)
    requires JumpOk(t, a, i, w)
    ensures var c := Copied(t, a, to);
            var v := if t.absJmp && a.passTwo then RebasedJump(t, a, to, w) else w;
            JumpIndex(t, c, i, v) == JumpIndex(t, a, i, w) && JumpOk(t, c, i, v)
  {
  }

  lemma OperandKeptIff(t: Build, a: OpArray, to: Layout, i: int, o: Operand, jump: bool)
    requires OperandOk(t, a, i, o, jump)
    ensures var c := Copied(t, a, to); var r := RebasedOperand(t, a, to, i, o, jump);
            && (OperandSense(t, c, i, r, jump) == OperandSense(t, a, i, o, jump) <==> ConstFits(t, a, to, i, o))
            && (ConstFits(t, a, to, i, o) ==> OperandOk(t, c, i, r, jump))
  {
    if o.isConst { ConstKeptIff(t, a, to, i, o); }
    if jump { JumpKept(t, a, to, i, o.word); }
  }

  // ---------------------------------------------------------------- the whole function

  predicate OpFits(t: Build, a: OpArray, to: Layout, i: nat)
    requires i < |a.ops|
  {
    ConstFits(t, a, to, i, a.ops[i].op1) && ConstFits(t, a, to, i, a.ops[i].op2)
  }

  predicate Fits(t: Build, a: OpArray, to: Layout) {
    forall i :: 0 <= i < |a.ops| ==> OpFits(t, a, to, i)
  }

  lemma OpKeptIff(t: Build, a: OpArray, to: Layout, i: nat)
    requires i < |a.ops| && OpOk(t, a, i)
    ensures SenseOf(t, Copied(t, a, to), i) == SenseOf(t, a, i) <==> OpFits(t, a, to, i)
    ensures OpFits(t, a, to, i) ==> OpOk(t, Copied(t, a, to), i)
  {
    var op := a.ops[i];
    OperandKeptIff(t, a, to, i, op.op1, JumpOperand(t, op) == First);
    OperandKeptIff(t, a, to, i, op.op2, JumpOperand(t, op) == Second);
    hide OperandSense, OperandOk, ConstFits, RebasedOperand;
    var c := Copied(t, a, to).ops[i];
    assert JumpOperand(t, c) == JumpOperand(t, op);
  }

  /** A copy runs as the original did if and only if every constant is within reach. */
  lemma CopyMeansTheSameIff(t: Build, a: OpArray, to: Layout)
    requires WellFormed(t, a)
    ensures Meaning(t, Copied(t, a, to)) == Meaning(t, a) <==> Fits(t, a, to)
    ensures Fits(t, a, to) ==> WellFormed(t, Copied(t, a, to))
  {
    hide SenseOf, OpFits, OpOk, Copied;
    var c := Copied(t, a, to);
    forall i | 0 <= i < |a.ops|
      ensures SenseOf(t, c, i) == SenseOf(t, a, i) <==> OpFits(t, a, to, i)
      ensures OpFits(t, a, to, i) ==> OpOk(t, c, i)
    {
      OpKeptIff(t, a, to, i);
    }
    if Meaning(t, c) == Meaning(t, a) {
      forall i | 0 <= i < |a.ops| ensures OpFits(t, a, to, i) {
        assert Meaning(t, c)[i] == Meaning(t, a)[i];
      }
    }
  }

  // ---------------------------------------------------------------- the layout the copier chooses

  function Aligned16(n: int): int { (n + 15) / 16 * 16 }

  /** Opcodes and literals in one allocation, the literals after the opcodes (relative builds, pass two done). */
  function OneBlock(t: Build, a: OpArray, memory: int): Layout {
    Layout(memory, memory + Aligned16(OpBytes(t, |a.ops|)))
  }

  function BlockSize(t: Build, a: OpArray): int { Aligned16(OpBytes(t, |a.ops|)) + ZVAL_SIZE * a.literals }

  /** The literals stand where pass two, and the copier after it, put them. */
  predicate InOneBlock(t: Build, a: OpArray) { a.literalsAt == a.opcodesAt + Aligned16(OpBytes(t, |a.ops|)) }

  /** A copy that keeps the literals at their distance keeps every offset. */
  lemma SameDistanceFits(t: Build, a: OpArray, to: Layout)
    requires WellFormed(t, a) && a.passTwo && Drift(a, to) == 0
    ensures Fits(t, a, to)
  {
    forall i | 0 <= i < |a.ops| ensures OpFits(t, a, to, i) {
      assert OpOk(t, a, i);
      SameOffset(t, a, to, i, a.ops[i].op1);
      SameOffset(t, a, to, i, a.ops[i].op2);
    }
  }

  lemma SameOffset(t: Build, a: OpArray, to: Layout, i: nat, o: Operand)
    requires (o.isConst ==> ConstOk(t, a, i, o.word)) && a.passTwo && Drift(a, to) == 0
    ensures ConstFits(t, a, to, i, o)
  {
    if o.isConst && !t.absConst { assert NewOffset(t, a, to, i, o.word) == Signed32(o.word); }
  }

  /** In one block every constant lies ahead of its opcode and inside the block. */
  lemma OneBlockFits(t: Build, a: OpArray, memory: int)
    requires WellFormed(t, a) && a.passTwo && BlockSize(t, a) <= TWO31
    ensures Fits(t, a, OneBlock(t, a, memory))
  {
    var to := OneBlock(t, a, memory);
    forall i | 0 <= i < |a.ops| ensures OpFits(t, a, to, i) {
      assert OpOk(t, a, i);
      ConstInBlock(t, a, memory, i, a.ops[i].op1);
      ConstInBlock(t, a, memory, i, a.ops[i].op2);
    }
  }

  lemma ConstInBlock(t: Build, a: OpArray, memory: int, i: nat, o: Operand)
    requires i < |a.ops| && a.passTwo && (o.isConst ==> ConstOk(t, a, i, o.word))
    requires BlockSize(t, a) <= TWO31
    ensures ConstFits(t, a, OneBlock(t, a, memory), i, o)
  {
    assert OpBytes(t, i) <= OpBytes(t, |a.ops|) <= Aligned16(OpBytes(t, |a.ops|));
  }

  /** The memory the allocator offers: for the opcodes, and for the literals if they get their own. */
  datatype Memory = Memory(opcodes: int, literals: int)

  /** One allocation for both if constants are relative and pass two is done, two otherwise. */
  function Chosen(t: Build, a: OpArray, m: Memory): Layout {
    if !t.absConst && a.passTwo then OneBlock(t, a, m.opcodes) else Layout(m.opcodes, m.literals)
  }

  /** A function handed from thread to thread: each thread copies its parent's copy. */
  function Handed(t: Build, a: OpArray, memories: seq<Memory>): OpArray
    decreases |memories|
  {
    if memories == [] then a
    else Handed(t, Copied(t, a, Chosen(t, a, memories[0])), memories[1..])
  }

  lemma ChosenFits(t: Build, a: OpArray, m: Memory)
    requires WellFormed(t, a) && a.passTwo && (t.absConst || InOneBlock(t, a) || BlockSize(t, a) <= TWO31)
    ensures Fits(t, a, Chosen(t, a, m))
    ensures t.absConst || InOneBlock(t, Copied(t, a, Chosen(t, a, m)))
  {
    if !t.absConst {
      if InOneBlock(t, a) { SameDistanceFits(t, a, Chosen(t, a, m)); } else { OneBlockFits(t, a, m.opcodes); }
    }
  }

  /**
    Whatever its size, a function laid out as pass two lays it out keeps its meaning through any
    number of copies; one laid out otherwise does so if it is no larger than 2 GiB.
    */
  lemma {:induction false} HandedKeepsMeaning(t: Build, a: OpArray, memories: seq<Memory>)
    requires WellFormed(t, a) && a.passTwo && (t.absConst || InOneBlock(t, a) || BlockSize(t, a) <= TWO31)
    ensures Meaning(t, Handed(t, a, memories)) == Meaning(t, a)
    decreases |memories|
  {
    if memories != [] {
      var to := Chosen(t, a, memories[0]);
      ChosenFits(t, a, memories[0]);
      CopyMeansTheSameIff(t, a, to);
      HandedKeepsMeaning(t, Copied(t, a, to), memories[1..]);
    }
  }

  // ---------------------------------------------------------------- functions copied before pass two

  /** Without constants, or with blocks that did not move, nothing is lost; with a literal number that
      is no multiple of 16 an aligned relative build always loses it, wherever the copy goes. */
  lemma UnpassedNumberIsLost(t: Build, a: OpArray, m: Memory, i: nat)
    requires WellFormed(t, a) && !a.passTwo && i < |a.ops| && a.ops[i].op1.isConst && a.ops[i].op1.word % 16 != 0
    requires AlignedBlocks(t, a, Chosen(t, a, m))
    ensures Meaning(t, Copied(t, a, Chosen(t, a, m))) != Meaning(t, a)
  {
    var to := Chosen(t, a, m);
    assert OpOk(t, a, i);
    AlignedUnpassedIff(t, a, to, i, a.ops[i].op1);
    UnpassedConstIff(t, a, to, i, a.ops[i].op1);
    assert !OpFits(t, a, to, i);
    CopyMeansTheSameIff(t, a, to);
  }

  /** One such function: its only opcode uses literal 1 of 2. */
  lemma UnpassedCopyIsWrong(m: Memory)
    requires m.opcodes % 16 == 0 && m.literals % 16 == 0
    ensures var t := Build(true, false, false, 80300);
            var none := Operand(false, 0);
            var a := OpArray([Op(Other(0), Operand(true, 1), none, none, 0, 1)], 4096, 8192, 2, false);
            WellFormed(t, a) && Meaning(t, Copied(t, a, Chosen(t, a, m))) != Meaning(t, a)
  {
    var t := Build(true, false, false, 80300);
    var none := Operand(false, 0);
    var a := OpArray([Op(Other(0), Operand(true, 1), none, none, 0, 1)], 4096, 8192, 2, false);
    assert OpOk(t, a, 0);
    UnpassedNumberIsLost(t, a, m, 0);
  }
}
