/** Blocks and their identifiers. A block names its predecessor; its number is one more. */
module Blocks {
  import opened Wrappers

  type Transaction = int

  /** The first word of a block id is the block's number, the rest is a hash. */
  datatype BlockId = BlockId(num: nat, digest: int)

  datatype Block = Block(previous: BlockId, digest: int, transactions: seq<Transaction>)

  /** The predecessor that block 1 names. */
  const ZERO_ID := BlockId(0, 0)

  function Num(b: Block): (n: nat)
    ensures n >= 1
  {
    b.previous.num + 1
  }

  function Id(b: Block): BlockId {
    BlockId(Num(b), b.digest)
  }

  type Index = map<BlockId, Block>

  /** Every block is stored under its own id. */
  ghost predicate Keyed(index: Index) {
    forall id :: id in index ==> Id(index[id]) == id
  }

  function Prev(index: Index, b: Block): Option<Block> {
    if b.previous in index then Some(index[b.previous]) else None
  }

  /** The block numbered n that b reaches through stored predecessors; b itself need not be stored. */
  ghost function Ancestor(index: Index, b: Block, n: int): (r: Option<Block>)
    requires Keyed(index)
    ensures r.Some? ==> Num(r.value) == n <= Num(b)
    ensures r.Some? && n < Num(b) ==> Id(r.value) in index && index[Id(r.value)] == r.value
    decreases Num(b)
  {
    if n >= Num(b) then
      if n == Num(b) then Some(b) else None
    else
      match Prev(index, b)
      case None => None
      case Some(p) =>
        assert Num(p) == Num(b) - 1;
        Ancestor(index, p, n)
  }

  /** The id at height n that is a strict ancestor of b; the block it names need not be stored. */
  ghost function AncestorId(index: Index, b: Block, n: int): Option<BlockId>
    requires Keyed(index)
  {
    match Ancestor(index, b, n + 1)
    case None => None
    case Some(x) => Some(x.previous)
  }

  /** a and b have the same strict ancestor at height n. */
  ghost predicate Common(index: Index, a: Block, b: Block, n: int)
    requires Keyed(index)
  {
    AncestorId(index, a, n).Some? && AncestorId(index, a, n) == AncestorId(index, b, n)
  }

  /** n is the greatest height at which a and b have a common strict ancestor. */
  ghost predicate Deepest(index: Index, a: Block, b: Block, n: int)
    requires Keyed(index)
  {
    Common(index, a, b, n) && forall m :: Common(index, a, b, m) ==> m <= n
  }

  /** From `tip` downwards, each block followed by its stored predecessor. */
  ghost predicate Branch(index: Index, tip: Block, branch: seq<Block>) {
    && |branch| >= 1 && branch[0] == tip
    && forall i :: 0 <= i < |branch| - 1 ==> Prev(index, branch[i]) == Some(branch[i + 1])
  }

  lemma {:induction false} AncestorStep(index: Index, tip: Block, x: Block, p: Block)
    requires Keyed(index) && Ancestor(index, tip, Num(x)) == Some(x) && Prev(index, x) == Some(p)
    ensures Ancestor(index, tip, Num(p)) == Some(p) && Num(p) == Num(x) - 1
    decreases Num(tip)
  {
    if tip != x {
      AncestorStep(index, Prev(index, tip).value, x, p);
    }
  }

  lemma {:induction false} AncestorEnds(index: Index, tip: Block, x: Block, n: int)
    requires Keyed(index) && Ancestor(index, tip, Num(x)) == Some(x) && Prev(index, x).None? && n < Num(x)
    ensures Ancestor(index, tip, n).None?
    decreases Num(tip)
  {
    if tip != x {
      AncestorEnds(index, Prev(index, tip).value, x, n);
    }
  }

  /** Ancestors of an ancestor are ancestors. */
  lemma {:induction false} AncestorOf(index: Index, tip: Block, m: int, n: int)
    requires Keyed(index) && n <= m && Ancestor(index, tip, m).Some?
    ensures Ancestor(index, tip, n) == Ancestor(index, Ancestor(index, tip, m).value, n)
    decreases Num(tip)
  {
    if m < Num(tip) {
      AncestorOf(index, Prev(index, tip).value, m, n);
    }
  }

  /** What names x at height n is stored one higher. */
  lemma {:induction false} AncestorAbove(index: Index, tip: Block, n: int)
    requires Keyed(index) && n < Num(tip) && Ancestor(index, tip, n).Some?
    ensures AncestorId(index, tip, n) == Some(Id(Ancestor(index, tip, n).value))
    decreases Num(tip)
  {
    if n + 1 < Num(tip) {
      AncestorAbove(index, Prev(index, tip).value, n);
    }
  }

  /** Below a common strict ancestor every stored strict ancestor is common. */
  lemma {:induction false} CommonBelow(index: Index, a: Block, b: Block, n: int, m: int)
    requires Keyed(index) && Common(index, a, b, n) && m < n && AncestorId(index, a, m).Some?
    ensures Common(index, a, b, m)
  {
    AncestorOf(index, a, n + 1, m + 1);
    AncestorOf(index, b, n + 1, m + 1);
    var x, y := Ancestor(index, a, n + 1).value, Ancestor(index, b, n + 1).value;
    assert Prev(index, x) == Prev(index, y);
    if m + 1 == n + 1 {
    } else {
      assert Ancestor(index, x, m + 1) == Ancestor(index, y, m + 1);
    }
  }

  /** Entry i of a branch is i blocks below its tip. */
  lemma {:induction false} BranchAt(index: Index, tip: Block, branch: seq<Block>, i: nat)
    requires Keyed(index) && Branch(index, tip, branch) && i < |branch|
    ensures Num(branch[i]) == Num(tip) - i && Ancestor(index, tip, Num(tip) - i) == Some(branch[i])
  {
    if i > 0 {
      BranchAt(index, tip, branch, i - 1);
      assert Prev(index, branch[i - 1]) == Some(branch[i - 1 + 1]);
      AncestorStep(index, tip, branch[i - 1], branch[i]);
    }
  }

  /** The greatest height up to n at which a and b have the same strict ancestor, or -1. */
  ghost function HighestCommon(index: Index, a: Block, b: Block, n: int): (r: int)
    requires Keyed(index)
    ensures r >= -1
    decreases n + 1
  {
    if n < 0 then -1 else if Common(index, a, b, n) then n else HighestCommon(index, a, b, n - 1)
  }

  /** The height of the deepest common strict ancestor, or -1 if there is none. */
  ghost function ForkHeight(index: Index, a: Block, b: Block): (r: int)
    requires Keyed(index)
    ensures r >= -1
  {
    HighestCommon(index, a, b, Num(b) - 1)
  }

  lemma {:induction false} HighestCommonIs(index: Index, a: Block, b: Block, n: int)
    requires Keyed(index) && forall m :: Common(index, a, b, m) ==> m <= n
    ensures var r := HighestCommon(index, a, b, n);
            if r == -1 then forall m :: !Common(index, a, b, m) else Deepest(index, a, b, r)
    decreases n + 1
  {
    if n < 0 {
      CommonHeights(index, a, b);
    } else if !Common(index, a, b, n) {
      HighestCommonIs(index, a, b, n - 1);
    }
  }

  lemma {:induction false} CommonHeights(index: Index, a: Block, b: Block)
    requires Keyed(index)
    ensures forall m :: Common(index, a, b, m) ==> 0 <= m < Num(a) && m < Num(b)
  {
    hide Ancestor;
  }

  /** The fork height is that of the deepest common ancestor, if there is one. */
  lemma {:induction false} ForkHeightIs(index: Index, a: Block, b: Block)
    requires Keyed(index)
    ensures var r := ForkHeight(index, a, b);
            if r == -1 then forall m :: !Common(index, a, b, m) else Deepest(index, a, b, r) && r < Num(a) && r < Num(b)
  {
    hide Ancestor, AncestorId;
    CommonHeights(index, a, b);
    HighestCommonIs(index, a, b, Num(b) - 1);
  }

  lemma {:induction false} DeepestIsForkHeight(index: Index, a: Block, b: Block, n: int)
    requires Keyed(index) && Deepest(index, a, b, n)
    ensures ForkHeight(index, a, b) == n
  {
    hide Common;
    ForkHeightIs(index, a, b);
  }

  /** Where walking down stored predecessors ends. */
  ghost function Bottom(index: Index, b: Block): (r: Block)
    requires Keyed(index)
    ensures Num(r) <= Num(b) && r.previous !in index
    decreases Num(b)
  {
    match Prev(index, b)
    case None => b
    case Some(p) =>
      assert Num(p) == Num(b) - 1;
      Bottom(index, p)
  }

  lemma {:induction false} BottomBelow(index: Index, b: Block, n: int)
    requires Keyed(index) && Ancestor(index, b, n).Some?
    ensures Bottom(index, b) == Bottom(index, Ancestor(index, b, n).value) && Num(Bottom(index, b)) <= n
    decreases Num(b)
  {
    if n < Num(b) {
      BottomBelow(index, Prev(index, b).value, n);
    }
  }

  function Reversed(down: seq<Block>): (up: seq<Block>)
    ensures |up| == |down|
    ensures forall i :: 0 <= i < |up| ==> up[i] == down[|down| - 1 - i]
  {
    seq(|down|, i requires 0 <= i < |down| => down[|down| - 1 - i])
  }

  /** The stored blocks from height c + 1 up to the tip. */
  ghost function UpFrom(index: Index, tip: Block, c: nat): (up: seq<Block>)
    requires Keyed(index) && Ancestor(index, tip, c + 1).Some?
    ensures |up| == Num(tip) - c && up[|up| - 1] == tip
    decreases Num(tip)
  {
    if Num(tip) == c + 1 then [tip] else UpFrom(index, Prev(index, tip).value, c) + [tip]
  }

  /** A branch from its tip down to height c + 1, turned round. */
  lemma {:induction false} BranchUp(index: Index, tip: Block, down: seq<Block>, c: nat)
    requires Keyed(index) && Branch(index, tip, down) && down[|down| - 1].previous.num == c
    ensures Ancestor(index, tip, c + 1).Some? && Reversed(down) == UpFrom(index, tip, c)
    decreases |down|
  {
    BranchAt(index, tip, down, |down| - 1);
    if |down| > 1 {
      assert Prev(index, down[0]) == Some(down[0 + 1]);
      var rest := down[1..];
      forall i | 0 <= i < |rest| - 1
        ensures Prev(index, rest[i]) == Some(rest[i + 1])
      {
        assert Prev(index, down[i + 1]) == Some(down[i + 1 + 1]);
      }
      BranchUp(index, down[1], rest, c);
      assert Reversed(down) == Reversed(rest) + [tip];
    } else {
      assert Reversed(down) == [tip];
    }
  }

  /** Each block names the one before it. */
  ghost predicate Chained(line: seq<Block>) {
    forall i :: 0 < i < |line| ==> line[i].previous == Id(line[i - 1])
  }

  ghost predicate Stored(index: Index, blocks: seq<Block>) {
    forall i :: 0 <= i < |blocks| ==> Id(blocks[i]) in index && index[Id(blocks[i])] == blocks[i]
  }

  /** A fetched branch is linked, and stored if its tip is. */
  lemma {:induction false} BranchLinked(index: Index, tip: Block, down: seq<Block>)
    requires Keyed(index) && Branch(index, tip, down) && Id(tip) in index && index[Id(tip)] == tip
    ensures Chained(Reversed(down)) && Stored(index, Reversed(down))
    ensures forall i :: 0 <= i < |down| ==> Num(down[i]) == Num(tip) - i
  {
    hide Ancestor;
    forall i | 0 <= i < |down|
      ensures Num(down[i]) == Num(tip) - i && Id(down[i]) in index && index[Id(down[i])] == down[i]
      ensures i > 0 ==> down[i - 1].previous == Id(down[i])
    {
      BranchAt(index, tip, down, i);
      if i > 0 {
        assert Prev(index, down[i - 1]) == Some(down[i - 1 + 1]);
      }
    }
  }
}
