/** The database of recent blocks on all branches. */
module ForkDatabase {
  import opened Wrappers
  import opened Blocks
  import opened Sets

  datatype PushResult = Linked(head: Block) | TooOld | Unlinkable

  datatype Branches = Branches(first: seq<Block>, second: seq<Block>)

  function Bound(head: nat, maxSize: nat): nat {
    if head > maxSize then head - maxSize else 0
  }

  /** The blocks at height n, on any branch. */
  function AtHeight(index: Index, n: int): set<Block> {
    set id | id in index && Num(index[id]) == n :: index[id]
  }

  function Kept(index: Index, bound: nat): Index {
    map id | id in index && id.num >= bound :: index[id]
  }

  /** The only block at height n is not on the branch that ends in head. */
  ghost predicate LoneStray(index: Index, head: Block, n: int)
    requires Keyed(index)
  {
    exists b :: AtHeight(index, n) == {b} && Ancestor(index, head, n) != Some(b)
  }

  class Forks {
    var head: Option<Block>
    var index: Index
    var maxSize: nat

    constructor ()
      ensures head == None && index == map[] && maxSize == 1024
    {
      head, index, maxSize := None, map[], 1024;
    }

    method StartBlock(b: Block)
      modifies `head, `index
      ensures head == Some(b)
      ensures index == if Id(b) in old(index) then old(index) else old(index)[Id(b) := b]
    {
      if Id(b) !in index {
        index := index[Id(b) := b];
      }
      head := Some(b);
    }

    /** The head steps down to its predecessor, which must be stored or kept alive by the caller. */
    method PopBlock(held: Index) returns (ok: bool)
      modifies `head
      ensures ok <==> old(head).Some? && old(head).value.previous in index + held
      ensures head == if ok then Some((index + held)[old(head).value.previous]) else old(head)
    {
      if head.None? {
        return false;
      }
      match Prev(index + held, head.value)
      case None => return false;
      case Some(p) =>
        head := Some(p);
        return true;
    }

    /** A block is stored when it is recent enough and its predecessor is stored; it becomes the head
        when it is higher. */
    method PushBlock(b: Block) returns (r: PushResult)
      modifies `head, `index
      ensures r.TooOld? <==> old(head).Some? && Num(b) <= Bound(Num(old(head).value), maxSize)
      ensures r.TooOld? <==> old(head).Some? && Num(b) + maxSize <= Num(old(head).value)
      ensures r.Unlinkable? <==> !r.TooOld? && old(head).Some? && b.previous != ZERO_ID && b.previous !in old(index)
      ensures !r.Linked? ==> index == old(index) && head == old(head)
      ensures r.Linked? ==> index == if Id(b) in old(index) then old(index) else old(index)[Id(b) := b]
      ensures r.Linked? ==> head == Some(r.head)
      ensures r.Linked? ==> r.head == if old(head).None? || Num(b) > Num(old(head).value) then b else old(head).value
    {
      if head.Some? && Num(b) <= Bound(Num(head.value), maxSize) {
        return TooOld;
      }
      if head.Some? && b.previous != ZERO_ID {
        if b.previous !in index {
          return Unlinkable;
        }
      }
      if Id(b) !in index {
        index := index[Id(b) := b];
      }
      if head.None? || Num(b) > Num(head.value) {
        head := Some(b);
      }
      return Linked(head.value);
    }

    method Remove(id: BlockId)
      modifies `index
      ensures index == old(index) - {id}
    {
      index := index - {id};
    }

    method SetHead(b: Block)
      modifies `head
      ensures head == Some(b)
    {
      head := Some(b);
    }

    /** Blocks too far below the head are dropped. */
    method SetMaxSize(s: nat)
      modifies `index, `maxSize
      ensures maxSize == s
      ensures index == if head.Some? then Kept(old(index), Bound(Num(head.value), s)) else old(index)
      ensures forall id :: id in index <==> id in old(index) && (head.Some? ==> Num(head.value) <= id.num + s)
      ensures forall id :: id in index ==> index[id] == old(index)[id]
    {
      maxSize := s;
      if head.None? {
        return;
      }
      var bound := Bound(Num(head.value), s);
      var stale := set id | id in index && id.num < bound;
      while stale != {}
        invariant maxSize == s && stale == set id | id in index && id.num < bound
        invariant Kept(index, bound) == Kept(old(index), bound)
        invariant index.Keys <= old(index).Keys && forall id :: id in index ==> index[id] == old(index)[id]
        decreases stale
      {
        ghost var w := Member(stale);
        var id :| id in stale;
        index := index - {id};
        stale := stale - {id};
      }
      assert forall id :: id in index && id.num < bound ==> id in stale;
      assert forall id :: id in Kept(index, bound) <==> id in Kept(old(index), bound);
      assert index == Kept(index, bound);
    }

    /** The branches of two stored blocks down to their deepest common ancestor, if the blocks between are
        stored. */
    method FetchBranchFrom(first: BlockId, second: BlockId) returns (r: Option<Branches>)
      requires Keyed(index)
      ensures r.Some? ==> first in index && second in index
      ensures r.Some? ==> Branch(index, index[first], r.value.first)
      ensures r.Some? ==> Branch(index, index[second], r.value.second)
      ensures r.Some? ==> r.value.first[|r.value.first| - 1].previous == r.value.second[|r.value.second| - 1].previous
      ensures r.Some? ==>
        Deepest(index, index[first], index[second], r.value.first[|r.value.first| - 1].previous.num)
      ensures r.Some? <==> first in index && second in index && exists n :: Common(index, index[first], index[second], n)
    {
      if first !in index || second !in index {
        return None;
      }
      var a, b := index[first], index[second];
      var x, y := a, b;
      var xs, ys: seq<Block> := [], [];
      while Num(x) > Num(y)
        invariant Reached(index, a, xs, x) && y == b && ys == []
        invariant x == a || Num(x) >= Num(y)
        invariant forall n :: Common(index, a, b, n) ==> n < Num(x) && n < Num(y)
        decreases Num(x)
      {
        match Prev(index, x)
        case None =>
          NoCommon(index, a, b, x, y);
          return None;
        case Some(p) =>
          ReachedStep(index, a, xs, x, p);
          xs, x := xs + [x], p;
      }
      while Num(y) > Num(x)
        invariant Num(x) <= Num(y) && Reached(index, a, xs, x) && Reached(index, b, ys, y)
        invariant forall n :: Common(index, a, b, n) ==> n < Num(x) && n < Num(y)
        decreases Num(y)
      {
        match Prev(index, y)
        case None =>
          NoCommon(index, a, b, x, y);
          return None;
        case Some(p) =>
          ReachedStep(index, b, ys, y, p);
          ys, y := ys + [y], p;
      }
      while x.previous != y.previous
        invariant Num(x) == Num(y)
        invariant Reached(index, a, xs, x) && Reached(index, b, ys, y)
        invariant forall n :: Common(index, a, b, n) ==> n < Num(x)
        decreases Num(x)
      {
        assert !Common(index, a, b, Num(x) - 1);
        if Prev(index, x).None? {
          NoCommon(index, a, b, x, y);
          return None;
        }
        if Prev(index, y).None? {
          NoCommon(index, a, b, x, y);
          return None;
        }
        ReachedStep(index, a, xs, x, Prev(index, x).value);
        ReachedStep(index, b, ys, y, Prev(index, y).value);
        xs, x := xs + [x], Prev(index, x).value;
        ys, y := ys + [y], Prev(index, y).value;
      }
      assert Common(index, a, b, Num(x) - 1);
      return Some(Branches(xs + [x], ys + [y]));
    }

    method WalkMainBranchToNum(n: nat) returns (r: Option<Block>)
      requires Keyed(index) && head.Some?
      ensures r == Ancestor(index, head.value, n)
    {
      var next := head;
      if n > Num(head.value) {
        return None;
      }
      while next.Some? && Num(next.value) > n
        invariant next.Some? ==> n <= Num(next.value) && Ancestor(index, next.value, n) == Ancestor(index, head.value, n)
        invariant next.None? ==> Ancestor(index, head.value, n) == None
        decreases if next.Some? then Num(next.value) else 0
      {
        next := Prev(index, next.value);
      }
      return next;
    }

    /** A height with one block is answered without walking; the answer is the main branch's block
        unless that one block is a stray. */
    method FetchBlockOnMainBranchByNumber(n: nat) returns (r: Option<Block>)
      requires Keyed(index) && head.Some?
      ensures r == Ancestor(index, head.value, n) <==>
        !LoneStray(index, head.value, n) && !(n == Num(head.value) && AtHeight(index, n) == {})
      ensures Ancestor(index, head.value, n).Some? && Ancestor(index, head.value, n).value in AtHeight(index, n) ==>
        r == Ancestor(index, head.value, n)
      ensures forall b :: AtHeight(index, n) == {b} ==> r == Some(b)
    {
      var blocks := AtHeight(index, n);
      ghost var main := Ancestor(index, head.value, n);
      assert main.Some? && n < Num(head.value) ==> main.value in blocks;
      if |blocks| == 1 {
        ghost var w := Member(blocks);
        var b :| b in blocks;
        Singleton(blocks, b);
        assert main != Some(b) ==> LoneStray(index, head.value, n);
        return Some(b);
      }
      if |blocks| == 0 {
        return None;
      }
      r := WalkMainBranchToNum(n);
    }
  }

  /** Walking down from tip, xs has been passed and x reached. */
  ghost predicate Reached(index: Index, tip: Block, xs: seq<Block>, x: Block)
    requires Keyed(index)
  {
    Branch(index, tip, xs + [x]) && Ancestor(index, tip, Num(x)) == Some(x)
  }

  lemma {:induction false} ReachedStep(index: Index, tip: Block, xs: seq<Block>, x: Block, p: Block)
    requires Keyed(index) && Reached(index, tip, xs, x) && Prev(index, x) == Some(p)
    ensures Reached(index, tip, xs + [x], p) && Num(p) == Num(x) - 1
  {
    AncestorStep(index, tip, x, p);
    var branch := xs + [x] + [p];
    forall i | 0 <= i < |branch| - 1
      ensures Prev(index, branch[i]) == Some(branch[i + 1])
    {
      assert i < |xs| ==> (xs + [x])[i + 1] == branch[i + 1] && (xs + [x])[i] == branch[i];
    }
    assert branch[0] == (xs + [x])[0];
  }

  lemma {:induction false} NoCommon(index: Index, a: Block, b: Block, x: Block, y: Block)
    requires Keyed(index) && Ancestor(index, a, Num(x)) == Some(x) && Ancestor(index, b, Num(y)) == Some(y)
    requires forall n :: Common(index, a, b, n) ==> n < Num(x) && n < Num(y)
    requires x.previous != y.previous
    requires (Prev(index, x).None? && Num(x) >= Num(y)) || (Prev(index, y).None? && Num(y) >= Num(x))
    ensures forall n :: !Common(index, a, b, n)
  {
    forall n | Common(index, a, b, n)
      ensures false
    {
      if Prev(index, x).None? && Num(x) >= Num(y) {
        if n + 1 < Num(x) {
          AncestorEnds(index, a, x, n + 1);
        }
      } else if n + 1 < Num(y) {
        AncestorEnds(index, b, y, n + 1);
      }
    }
  }
}
