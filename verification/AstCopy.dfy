/**
  Copying a constant-expression tree into one buffer that was sized in advance
  (src/copy.c).  The buffer is an array of machine words on a 64-bit target: a node is a
  header word and its child pointers, a list has a length word in between, and a leaf is
  a header and the two words of a zval.
  */
module AstCopy {
  import opened Options

  type Value = nat

  const ZVAL: nat := 64
  const CONSTANT: nat := 65

  predicate IsLeaf(kind: nat) { kind == ZVAL || kind == CONSTANT }

  /** The list bit and the child count are part of a node's kind. */
  predicate IsList(kind: nat) { (kind / 128) % 2 == 1 }

  function NumChildren(kind: nat): nat { kind / 256 }

  datatype Ast =
    | Null
    | Leaf(kind: nat, attr: nat, val: Value)
    | Branch(kind: nat, attr: nat, child: seq<Ast>)

  predicate Valid(ast: Ast) {
    match ast
    case Null => false
    case Leaf(kind, _, _) => IsLeaf(kind)
    case Branch(kind, _, cs) =>
      && !IsLeaf(kind) && (!IsList(kind) ==> |cs| == NumChildren(kind))
      && forall i :: 0 <= i < |cs| ==> !cs[i].Null? ==> Valid(cs[i])
  }

  datatype Word =
    | Blank
    | Header(kind: nat, attr: nat)
    | Length(n: nat)
    | Pointer(to: Option<nat>)
    | Payload(v: Value, half: bool)

  // ---------------------------------------------------------------- sizes

  const LEAF_SIZE: nat := 3

  function Front(kind: nat): nat { if IsList(kind) then 2 else 1 }

  function TreeSize(ast: Ast): (n: nat)
    ensures n == 0 <==> ast == Null
    decreases ast, 0
  {
    match ast
    case Null => 0
    case Leaf(_, _, _) => LEAF_SIZE
    case Branch(kind, _, cs) => Front(kind) + |cs| + ChildrenSize(cs)
  }

  function ChildrenSize(cs: seq<Ast>): nat
    decreases cs
  {
    if cs == [] then 0
    else
      var n := |cs| - 1;
      ChildrenSize(cs[..n]) + TreeSize(cs[n])
  }

  /** zend_ast_tree_size, with its accumulating loop. */
  method ComputeTreeSize(ast: Ast) returns (size: nat)
    requires ast != Null
    ensures size == TreeSize(ast)
    decreases ast
  {
    match ast
    case Leaf(_, _, _) => size := LEAF_SIZE;
    case Branch(kind, _, cs) =>
      size := Front(kind) + |cs|;
      for i := 0 to |cs|
        invariant size == Front(kind) + |cs| + ChildrenSize(cs[..i])
      {
        assert cs[..i + 1][..i] == cs[..i];
        if !cs[i].Null? {
          var more := ComputeTreeSize(cs[i]);
          size := size + more;
        }
      }
      assert cs[..|cs|] == cs;
  }

  // ---------------------------------------------------------------- the layout the copier produces

  /** Words from `pos` on hold `ast`, its subtrees following each other without a gap. */
  predicate Holds(b: seq<Word>, pos: nat, ast: Ast)
    decreases ast, 0
  {
    && ast != Null && pos + TreeSize(ast) <= |b|
    && b[pos] == Header(ast.kind, ast.attr)
    && match ast
       case Leaf(_, _, v) => b[pos + 1] == Payload(v, false) && b[pos + 2] == Payload(v, true)
       case Branch(kind, _, cs) =>
         && (IsList(kind) ==> b[pos + 1] == Length(|cs|))
         && HoldsChildren(b, pos + Front(kind), pos + Front(kind) + |cs|, cs)
  }

  function Target(at: nat, cs: seq<Ast>, i: nat): Option<nat>
    requires i < |cs|
  {
    if !cs[i].Null? then Some(at + ChildrenSize(cs[..i])) else None
  }

  /** The pointers at `slot` lead to the subtrees laid out from `at` on. */
  predicate HoldsChildren(b: seq<Word>, slot: nat, at: nat, cs: seq<Ast>)
    decreases cs
  {
    cs == [] ||
    var n := |cs| - 1;
    && HoldsChildren(b, slot, at, cs[..n])
    && slot + n < |b| && b[slot + n] == Pointer(Target(at, cs, n))
    && (!cs[n].Null? ==> Holds(b, at + ChildrenSize(cs[..n]), cs[n]))
  }

  predicate Agree(b: seq<Word>, c: seq<Word>, from: nat, to: nat) {
    |b| == |c| && forall i :: from <= i < to && i < |b| ==> b[i] == c[i]
  }

  /** A laid-out tree depends on its own words only. */
  lemma {:induction false} HoldsFrame(b: seq<Word>, c: seq<Word>, pos: nat, ast: Ast)
    requires Holds(b, pos, ast) && Agree(b, c, pos, pos + TreeSize(ast))
    ensures Holds(c, pos, ast)
    decreases ast, 0
  {
    if ast.Branch? {
      var slot := pos + Front(ast.kind);
      ChildrenFrame(b, c, slot, slot + |ast.child|, ast.child);
    }
  }

  lemma {:induction false} ChildrenFrame(b: seq<Word>, c: seq<Word>, slot: nat, at: nat, cs: seq<Ast>)
    requires HoldsChildren(b, slot, at, cs)
    requires Agree(b, c, slot, slot + |cs|) && Agree(b, c, at, at + ChildrenSize(cs))
    ensures HoldsChildren(c, slot, at, cs)
    decreases cs
  {
    if cs != [] {
      var n := |cs| - 1;
      ChildrenFrame(b, c, slot, at, cs[..n]);
      if !cs[n].Null? { HoldsFrame(b, c, at + ChildrenSize(cs[..n]), cs[n]); }
    }
  }

  // ---------------------------------------------------------------- the copier

  /** pmmpthread_copy_ast_tree: writes `ast` at `pos` and returns the position after it. */
  method CopyTree(ast: Ast, buf: array<Word>, pos: nat) returns (next: nat)
    requires Valid(ast) && pos + TreeSize(ast) <= buf.Length
    modifies buf
    ensures next == pos + TreeSize(ast) && Holds(buf[..], pos, ast)
    ensures forall i :: 0 <= i < buf.Length && !(pos <= i < next) ==> buf[i] == old(buf[i])
    decreases ast, 1
  {
    buf[pos] := Header(ast.kind, ast.attr);
    match ast
    case Leaf(_, _, v) =>
      buf[pos + 1], buf[pos + 2] := Payload(v, false), Payload(v, true);
      next := pos + LEAF_SIZE;
    case Branch(kind, _, cs) =>
      if IsList(kind) { buf[pos + 1] := Length(|cs|); }
      next := CopyChildren(cs, buf, pos + Front(kind), pos + Front(kind) + |cs|);
  }

  /** The loop over the children, whose subtrees go one after the other behind the pointers. */
  method CopyChildren(cs: seq<Ast>, buf: array<Word>, slot: nat, at: nat) returns (next: nat)
    requires forall i :: 0 <= i < |cs| ==> cs[i].Null? || Valid(cs[i])
    requires slot + |cs| <= at && at + ChildrenSize(cs) <= buf.Length
    modifies buf
    ensures next == at + ChildrenSize(cs) && HoldsChildren(buf[..], slot, at, cs)
    ensures forall i :: 0 <= i < buf.Length && !(slot <= i < slot + |cs|) && !(at <= i < next) ==> buf[i] == old(buf[i])
    decreases cs, 2
  {
    assert HoldsChildren(buf[..], slot, at, cs[..0]) && ChildrenSize(cs[..0]) == 0;
    hide Holds, HoldsChildren, TreeSize, ChildrenSize, Valid;
    next := at;
    for i := 0 to |cs|
      invariant next == at + ChildrenSize(cs[..i]) && HoldsChildren(buf[..], slot, at, cs[..i])
      invariant forall j :: 0 <= j < buf.Length && !(slot <= j < slot + i) && !(at <= j < next) ==>
                  buf[j] == old(buf[j])
    {
      ghost var before := buf[..];
      SizeGrows(cs, i);
      next := CopyChild(cs, i, buf, slot, next);
      OneMoreChild(before, buf[..], slot, at, cs, i);
    }
    assert cs[..|cs|] == cs;
  }

  /** One child: its pointer is set to where the subtree is about to go. */
  method CopyChild(cs: seq<Ast>, i: nat, buf: array<Word>, slot: nat, pos: nat) returns (next: nat)
    requires i < |cs| && (cs[i].Null? || Valid(cs[i]))
    requires slot + i < pos && pos + TreeSize(cs[i]) <= buf.Length
    modifies buf
    ensures next == pos + TreeSize(cs[i]) && (!cs[i].Null? ==> Holds(buf[..], pos, cs[i]))
    ensures slot + i < buf.Length && buf[slot + i] == Pointer(if cs[i].Null? then None else Some(pos))
    ensures forall j :: 0 <= j < buf.Length && j != slot + i && !(pos <= j < next) ==> buf[j] == old(buf[j])
    decreases cs, 1
  {
    if !cs[i].Null? {
      hide Holds, TreeSize, Valid;
      buf[slot + i] := Pointer(Some(pos));
      next := CopyTree(cs[i], buf, pos);
    } else {
      buf[slot + i] := Pointer(None);
      next := pos;
    }
  }

  lemma {:induction false} OneMoreChild(b: seq<Word>, c: seq<Word>, slot: nat, at: nat, cs: seq<Ast>, i: nat)
    requires i < |cs| && HoldsChildren(b, slot, at, cs[..i])
    requires Agree(b, c, slot, slot + i) && Agree(b, c, at, at + ChildrenSize(cs[..i]))
    requires slot + i < |c| && c[slot + i] == Pointer(Target(at, cs, i))
    requires !cs[i].Null? ==> Holds(c, at + ChildrenSize(cs[..i]), cs[i])
    ensures HoldsChildren(c, slot, at, cs[..i + 1])
  {
    ChildrenFrame(b, c, slot, at, cs[..i]);
    assert cs[..i + 1][..i] == cs[..i];
  }

  lemma {:induction false} SizeGrows(cs: seq<Ast>, i: nat)
    requires i < |cs|
    ensures ChildrenSize(cs[..i + 1]) == ChildrenSize(cs[..i]) + TreeSize(cs[i])
    ensures ChildrenSize(cs[..i + 1]) <= ChildrenSize(cs)
    decreases |cs| - i
  {
    assert cs[..i + 1][..i] == cs[..i];
    if i + 1 == |cs| { assert cs[..i + 1] == cs; } else { SizeGrows(cs, i + 1); }
  }

  // ---------------------------------------------------------------- reading the copy back

  /** Follows the pointers of a buffer, knowing nothing of how it was laid out. */
  function Decode(b: seq<Word>, pos: nat): Option<Ast>
    decreases |b| - pos, 1, 0
  {
    if pos >= |b| || !b[pos].Header? then None
    else
      var kind, attr := b[pos].kind, b[pos].attr;
      if IsLeaf(kind) then
        if pos + 2 < |b| && b[pos + 1].Payload? && b[pos + 2] == Payload(b[pos + 1].v, true)
        then Some(Leaf(kind, attr, b[pos + 1].v)) else None
      else if IsList(kind) && (pos + 1 >= |b| || !b[pos + 1].Length?) then None
      else
        var n := if IsList(kind) then b[pos + 1].n else NumChildren(kind);
        var cs := DecodeChildren(b, pos, pos + Front(kind), n);
        if cs.Some? then Some(Branch(kind, attr, cs.value)) else None
  }

  function DecodeChildren(b: seq<Word>, pos: nat, slot: nat, n: nat): Option<seq<Ast>>
    decreases |b| - pos, 0, n
  {
    if n == 0 then Some([])
    else
      var before := DecodeChildren(b, pos, slot, n - 1);
      if before.None? || slot + n - 1 >= |b| || !b[slot + n - 1].Pointer? then None
      else if b[slot + n - 1].to.None? then Some(before.value + [Null])
      else if pos < b[slot + n - 1].to.value < |b| then
        var c := Decode(b, b[slot + n - 1].to.value);
        if c.Some? then Some(before.value + [c.value]) else None
      else None
  }

  /** What the copier wrote reads back as the tree it was given. */
  lemma {:induction false} DecodeHeld(b: seq<Word>, pos: nat, ast: Ast)
    requires Valid(ast) && Holds(b, pos, ast)
    ensures Decode(b, pos) == Some(ast)
    decreases ast, 1
  {
    if ast.Branch? {
      var slot := pos + Front(ast.kind);
      DecodeHeldChildren(b, pos, slot, slot + |ast.child|, ast.child);
    }
  }

  lemma {:induction false} DecodeHeldChildren(b: seq<Word>, pos: nat, slot: nat, at: nat, cs: seq<Ast>)
    requires (forall i :: 0 <= i < |cs| ==> !cs[i].Null? ==> Valid(cs[i])) && pos < at
    requires HoldsChildren(b, slot, at, cs)
    ensures DecodeChildren(b, pos, slot, |cs|) == Some(cs)
    decreases cs, 0
  {
    if cs != [] {
      var n := |cs| - 1;
      DecodeHeldChildren(b, pos, slot, at, cs[..n]);
      if !cs[n].Null? { DecodeHeld(b, at + ChildrenSize(cs[..n]), cs[n]); }
      hide Holds, Decode, TreeSize, Valid;
      assert cs == cs[..n] + [cs[n]];
    }
  }

  /** pmmpthread_copy_ast: one allocation, filled to the last word, that reads back as the tree. */
  method CopyAst(ast: Ast) returns (buf: array<Word>)
    requires Valid(ast)
    ensures fresh(buf) && buf.Length == 1 + TreeSize(ast)
    ensures Decode(buf[..], 1) == Some(ast)
    ensures Tiles(Extents(ast, 1), 1, buf.Length)
    ensures forall k :: 0 <= k < |Extents(ast, 1)| ==>
              Extents(ast, 1)[k].start < buf.Length && buf[Extents(ast, 1)[k].start].Header?
  {
    var size := ComputeTreeSize(ast);
    buf := new Word[1 + size](_ => Blank);
    var next := CopyTree(ast, buf, 1);
    assert next == buf.Length;
    DecodeHeld(buf[..], 1, ast);
    NodesTile(ast, 1);
    forall k | 0 <= k < |Extents(ast, 1)|
      ensures Extents(ast, 1)[k].start < buf.Length && buf[Extents(ast, 1)[k].start].Header?
    {
      HeldNodes(buf[..], 1, ast, k);
    }
  }

  // ---------------------------------------------------------------- the nodes' own words

  datatype Extent = Extent(start: nat, size: nat)

  /** The words of every node itself, without its subtrees, in the order they are written. */
  function Extents(ast: Ast, pos: nat): seq<Extent>
    decreases ast, 0
  {
    match ast
    case Null => []
    case Leaf(_, _, _) => [Extent(pos, LEAF_SIZE)]
    case Branch(kind, _, cs) =>
      [Extent(pos, Front(kind) + |cs|)] + ChildExtents(cs, pos + Front(kind) + |cs|)
  }

  function ChildExtents(cs: seq<Ast>, at: nat): seq<Extent>
    decreases cs
  {
    if cs == [] then []
    else
      var n := |cs| - 1;
      ChildExtents(cs[..n], at) + Extents(cs[n], at + ChildrenSize(cs[..n]))
  }

  /** Extents that follow each other from `from` to `to`: no overlap, no gap, nothing outside. */
  predicate Tiles(l: seq<Extent>, from: nat, to: nat)
    decreases |l|
  {
    if l == [] then from == to
    else l[0].start == from && l[0].size > 0 && Tiles(l[1..], from + l[0].size, to)
  }

  lemma {:induction false} TilesJoin(l: seq<Extent>, m: seq<Extent>, from: nat, mid: nat, to: nat)
    requires Tiles(l, from, mid) && Tiles(m, mid, to)
    ensures Tiles(l + m, from, to)
    decreases |l|
  {
    if l == [] {
      assert l + m == m;
    } else {
      TilesJoin(l[1..], m, from + l[0].size, mid, to);
      assert (l + m)[1..] == l[1..] + m;
    }
  }

  /** The nodes of a copy fill exactly the words that were computed for the tree. */
  lemma {:induction false} NodesTile(ast: Ast, pos: nat)
    ensures Tiles(Extents(ast, pos), pos, pos + TreeSize(ast))
    decreases ast, 1
  {
    match ast
    case Null =>
    case Leaf(_, _, _) => assert [Extent(pos, LEAF_SIZE)][1..] == [];
    case Branch(kind, _, cs) =>
      var at := pos + Front(kind) + |cs|;
      ChildrenTile(cs, at);
      assert Extents(ast, pos)[1..] == ChildExtents(cs, at);
  }

  lemma {:induction false} ChildrenTile(cs: seq<Ast>, at: nat)
    ensures Tiles(ChildExtents(cs, at), at, at + ChildrenSize(cs))
    decreases cs, 0
  {
    if cs != [] {
      var n := |cs| - 1;
      var mid := at + ChildrenSize(cs[..n]);
      ChildrenTile(cs[..n], at);
      NodesTile(cs[n], mid);
      TilesJoin(ChildExtents(cs[..n], at), Extents(cs[n], mid), at, mid, at + ChildrenSize(cs));
    }
  }

  /** Node regions are inside the buffer and pairwise disjoint. */
  lemma {:induction false} TilesApart(l: seq<Extent>, from: nat, to: nat, i: nat, j: nat)
    requires Tiles(l, from, to) && i < |l| && j < |l| && i != j
    ensures from <= l[i].start && l[i].start + l[i].size <= to
    ensures l[i].start + l[i].size <= l[j].start || l[j].start + l[j].size <= l[i].start
    decreases |l|
  {
    TilesInside(l, from, to, i);
    if i > 0 && j > 0 {
      TilesApart(l[1..], from + l[0].size, to, i - 1, j - 1);
    } else if i == 0 {
      TilesInside(l[1..], from + l[0].size, to, j - 1);
    } else {
      TilesInside(l[1..], from + l[0].size, to, i - 1);
    }
  }

  lemma {:induction false} TilesInside(l: seq<Extent>, from: nat, to: nat, i: nat)
    requires Tiles(l, from, to) && i < |l|
    ensures from <= l[i].start && l[i].start + l[i].size <= to
    decreases |l|
  {
    if i > 0 { TilesInside(l[1..], from + l[0].size, to, i - 1); }
    else { TilesForward(l[1..], from + l[0].size, to); }
  }

  lemma {:induction false} TilesForward(l: seq<Extent>, from: nat, to: nat)
    requires Tiles(l, from, to)
    ensures from <= to
    decreases |l|
  {
    if l != [] { TilesForward(l[1..], from + l[0].size, to); }
  }

  /** Every region the tiling speaks of is a node of the copy: it begins with a node header. */
  lemma {:induction false} HeldNodes(b: seq<Word>, pos: nat, ast: Ast, k: nat)
    requires Holds(b, pos, ast) && k < |Extents(ast, pos)|
    ensures Extents(ast, pos)[k].start < |b| && b[Extents(ast, pos)[k].start].Header?
    decreases ast, 1
  {
    if k > 0 && ast.Branch? {
      var slot := pos + Front(ast.kind);
      HeldChildNodes(b, slot, slot + |ast.child|, ast.child, k - 1);
    }
  }

  lemma {:induction false} HeldChildNodes(b: seq<Word>, slot: nat, at: nat, cs: seq<Ast>, k: nat)
    requires HoldsChildren(b, slot, at, cs) && k < |ChildExtents(cs, at)|
    ensures ChildExtents(cs, at)[k].start < |b| && b[ChildExtents(cs, at)[k].start].Header?
    decreases cs, 0
  {
    var n := |cs| - 1;
    var before := ChildExtents(cs[..n], at);
    if k < |before| {
      HeldChildNodes(b, slot, at, cs[..n], k);
    } else {
      HeldNodes(b, at + ChildrenSize(cs[..n]), cs[n], k - |before|);
    }
  }
}
