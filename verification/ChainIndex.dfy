/** What the fork database keeps of the chain that is applied, and how its main branch is looked up. */
module ChainIndex {
  import opened Wrappers
  import opened Blocks
  import opened ForkDatabase
  import opened ChainReplay

  /** The first chain position that the fork database is known to store: the log's head, or the first block. */
  function Low(log: seq<Block>): nat {
    if log == [] then 0 else |log| - 1
  }

  /** The index holds the chain from the log's head upwards. */
  ghost predicate Holds(index: Index, chain: seq<Block>, log: seq<Block>) {
    Keyed(index) && |log| <= |chain| && Stored(index, chain[Low(log)..])
  }

  /** Nothing stored is higher than n. */
  ghost predicate Heights(index: Index, n: nat) {
    forall id :: id in index ==> id.num <= n
  }

  ghost function Ids(blocks: seq<Block>): set<BlockId> {
    set b | b in blocks :: Id(b)
  }

  /** What applying leaves of the index: a little more than the reversible blocks. */
  ghost function Trimmed(index: Index, head: nat, lib: nat): Index
    requires lib <= head
  {
    Kept(index, Bound(head, head - lib + 1))
  }

  /** What of one index is left in another when blocks far enough below `lib` have been dropped. */
  ghost predicate LeftOver(before: Index, after: Index, lib: nat) {
    && (forall id :: id in after ==> id in before && after[id] == before[id])
    && forall id :: id in before && id.num + 1 >= lib ==> id in after
  }

  /** A fork database head at the chain's height: the chain's own head, or a failed block in its place. */
  ghost predicate HeadFits(h: Block, index: Index, chain: seq<Block>)
    requires chain != []
  {
    var last := chain[|chain| - 1];
    h == last
    || (Num(h) == |chain| && h.previous == HeadId(chain[..|chain| - 1]) && AtHeight(index, |chain|) == {last})
  }

  lemma {:induction false} HoldsAt(index: Index, chain: seq<Block>, log: seq<Block>, i: nat)
    requires Holds(index, chain, log) && Low(log) <= i < |chain|
    ensures Id(chain[i]) in index && index[Id(chain[i])] == chain[i]
  {
    assert chain[Low(log)..][i - Low(log)] == chain[i];
  }

  /** Walking down a numbered chain whose blocks below the last are stored passes its own blocks. */
  lemma {:induction false} ChainAncestor(index: Index, chain: seq<Block>, n: nat)
    requires Keyed(index) && Numbered(chain) && 1 <= n <= |chain|
    requires Stored(index, chain[n - 1..|chain| - 1])
    ensures Ancestor(index, chain[|chain| - 1], n) == Some(chain[n - 1])
  {
    var last := |chain| - 1;
    NumberedAt(chain, last);
    if n < |chain| {
      var shorter := chain[..last];
      assert Follows(chain, last);
      assert forall i :: 0 <= i < last && Follows(chain, i) ==> Follows(shorter, i);
      assert chain[n - 1..last][last - n] == chain[last - 1];
      assert shorter[n - 1..|shorter| - 1] == chain[n - 1..last][..last - n];
      ChainAncestor(index, shorter, n);
    }
  }

  /** The block that the main branch lookup gives for a height on the chain. */
  lemma {:induction false} MainBlock(index: Index, chain: seq<Block>, log: seq<Block>, n: nat)
    requires Holds(index, chain, log) && Numbered(chain) && Low(log) < n <= |chain|
    ensures Ancestor(index, chain[|chain| - 1], n) == Some(chain[n - 1])
    ensures Id(chain[n - 1]) in index
  {
    hide Ancestor, Numbered, Stored;
    StoredPart(index, chain, log, n);
    HoldsAt(index, chain, log, n - 1);
    ChainAncestor(index, chain, n);
  }

  lemma {:induction false} NumberedRival(chain: seq<Block>, h: Block)
    requires Numbered(chain) && chain != [] && h.previous == HeadId(chain[..|chain| - 1])
    ensures Numbered(chain[..|chain| - 1] + [h])
  {
    var last := |chain| - 1;
    var line := chain[..last] + [h];
    forall i | 0 <= i < |line|
      ensures Follows(line, i)
    {
      if i < last {
        assert Follows(chain, i);
      }
    }
  }

  lemma {:induction false} StoredPart(index: Index, chain: seq<Block>, log: seq<Block>, n: nat)
    requires Holds(index, chain, log) && Low(log) < n <= |chain|
    ensures Stored(index, chain[n - 1..|chain| - 1])
  {
    hide Holds;
    forall i | n - 1 <= i < |chain| - 1
      ensures Id(chain[i]) in index && index[Id(chain[i])] == chain[i]
    {
      HoldsAt(index, chain, log, i);
    }
  }

  /** Walking down from a block that stands where the chain's last block does passes the chain's blocks. */
  lemma {:induction false} RivalAncestor(index: Index, chain: seq<Block>, log: seq<Block>, h: Block, n: nat)
    requires Holds(index, chain, log) && Numbered(chain) && Low(log) < n < |chain|
    requires h.previous == HeadId(chain[..|chain| - 1])
    ensures Ancestor(index, h, n) == Some(chain[n - 1])
  {
    hide Ancestor, Numbered, Stored, Keyed;
    var last := |chain| - 1;
    var line := chain[..last] + [h];
    NumberedRival(chain, h);
    StoredPart(index, chain, log, n);
    assert line[n - 1..last] == chain[n - 1..last];
    ChainAncestor(index, line, n);
  }

  /** Looking a height up from a fitting head gives the chain's block, by the walk or because no other
      block has that height. */
  lemma {:induction false} Lookup(index: Index, chain: seq<Block>, log: seq<Block>, h: Block, n: nat)
    requires chain != [] && Holds(index, chain, log) && Numbered(chain) && HeadFits(h, index, chain)
    requires Low(log) < n <= |chain|
    ensures Keyed(index) && chain[n - 1] in AtHeight(index, n)
    ensures Ancestor(index, h, n) == Some(chain[n - 1]) || AtHeight(index, n) == {chain[n - 1]}
    ensures Num(h) == |chain|
  {
    hide Ancestor, Stored, Numbered;
    NumberedAt(chain, |chain| - 1);
    NumberedAt(chain, n - 1);
    HoldsAt(index, chain, log, n - 1);
    if h == chain[|chain| - 1] {
      MainBlock(index, chain, log, n);
    } else if n < |chain| {
      RivalAncestor(index, chain, log, h, n);
    }
  }

  /** The chain's own ancestors, by id. */
  lemma {:induction false} ChainAncestorId(index: Index, chain: seq<Block>, log: seq<Block>, n: nat)
    requires Holds(index, chain, log) && Numbered(chain) && Low(log) <= n < |chain|
    ensures AncestorId(index, chain[|chain| - 1], n) == Some(HeadId(chain[..n]))
  {
    MainBlock(index, chain, log, n + 1);
    assert Follows(chain, n);
  }

  lemma {:induction false} Stores(index: Index, chain: seq<Block>, log: seq<Block>, b: Block)
    requires Holds(index, chain, log) && (Id(b) in index ==> index[Id(b)] == b)
    ensures Holds(index[Id(b) := b], chain, log)
    ensures Id(b) in index ==> index[Id(b) := b] == index
  {
  }

  lemma {:induction false} HoldsPrefix(index: Index, all: seq<Block>, log: seq<Block>, c: nat)
    requires Holds(index, all, log) && |log| <= c <= |all|
    ensures Holds(index, all[..c], log)
  {
    var r := Low(log);
    assert all[..c][r..] == all[r..][..c - r];
  }

  lemma {:induction false} HoldsLonger(index: Index, chain: seq<Block>, log: seq<Block>, b: Block)
    requires Holds(index, chain, log) && Id(b) in index && index[Id(b)] == b
    ensures Holds(index, chain + [b], log)
  {
    var r := Low(log);
    assert (chain + [b])[r..] == chain[r..] + [b];
  }

  lemma {:induction false} HoldsTrimmed(index: Index, chain: seq<Block>, log: seq<Block>, lib: nat)
    requires Holds(index, chain, log) && Numbered(chain) && lib <= |chain|
    ensures Holds(Trimmed(index, |chain|, lib), chain, Logged(log, chain, lib))
  {
    var log' := Logged(log, chain, lib);
    var kept := chain[Low(log')..];
    forall i | 0 <= i < |kept|
      ensures Id(kept[i]) in Trimmed(index, |chain|, lib) && Trimmed(index, |chain|, lib)[Id(kept[i])] == kept[i]
    {
      var k := Low(log') + i;
      HoldsAt(index, chain, log, k);
      NumberedAt(chain, k);
    }
  }

  lemma {:induction false} RestHolds(left: Index, chain: seq<Block>, log: seq<Block>, bad: seq<Block>)
    requires Holds(left, chain, log) && forall x, y :: x in bad && y in chain ==> Id(x) != Id(y)
    ensures Holds(left - Ids(bad), chain, log)
  {
    var r := Low(log);
    forall i | 0 <= i < |chain[r..]|
      ensures Id(chain[r..][i]) in left - Ids(bad)
    {
      assert chain[r..][i] == chain[r + i];
      HoldsAt(left, chain, log, r + i);
    }
  }

  /** Forgetting a block that failed harms nothing unless it is one of the chain's own. */
  lemma {:induction false} Forgotten(index: Index, chain: seq<Block>, log: seq<Block>, b: Block, n: nat)
    requires Holds(index, chain, log) && Heights(index, n)
    ensures Heights(index - {Id(b)}, n)
    ensures Holds(index - {Id(b)}, chain, log) <==> Id(b) !in Ids(chain[Low(log)..])
  {
    var part := chain[Low(log)..];
    if Id(b) in Ids(part) {
      var x :| x in part && Id(x) == Id(b);
      var i :| 0 <= i < |part| && part[i] == x;
      assert !(Id(part[i]) in index - {Id(b)});
    } else {
      forall i | 0 <= i < |part|
        ensures Id(part[i]) in index - {Id(b)}
      {
        assert part[i] in part;
        assert Id(part[i]) in Ids(part);
      }
    }
  }

  /** Storing a block whose predecessor is stored adds at most one to the height. */
  lemma {:induction false} HeightsMore(index: Index, b: Block, n: nat)
    requires Heights(index, n)
    ensures Heights(index[Id(b) := b], if Num(b) <= n then n else Num(b))
    ensures Num(b) > n ==> Id(b) !in index && index[Id(b) := b] - {Id(b)} == index
    ensures b.previous in index ==> Num(b) <= n + 1
  {
  }

  lemma {:induction false} HeightsTrimmed(index: Index, head: nat, lib: nat)
    requires Heights(index, head) && lib <= head
    ensures Heights(Trimmed(index, head, lib), head)
  {
  }

  /** A failed block stays a fitting head when another block takes its place on the chain. */
  lemma {:induction false} FailedHeadFits(before: Index, chain: seq<Block>, b: Block, h: Block)
    requires Heights(before, |chain|) && h.previous == HeadId(chain) == b.previous && Keyed(before)
    requires HeadId(chain).num == |chain|
    ensures HeadFits(h, before[Id(b) := b], chain + [b])
  {
    var index := before[Id(b) := b];
    assert (chain + [b])[..|chain|] == chain;
    forall id | id in index && Num(index[id]) == |chain| + 1
      ensures index[id] == b
    {
    }
    assert b in AtHeight(index, |chain| + 1) by {
      assert Id(b) in index;
    }
    assert AtHeight(index, |chain| + 1) == {b};
  }

  lemma {:induction false} HeadNum(chain: seq<Block>)
    requires Numbered(chain)
    ensures HeadId(chain).num == |chain|
  {
    if chain != [] {
      NumberedAt(chain, |chain| - 1);
    }
  }

  /** What applying a block needs when the fork database's head is the block or one that has failed in its place. */
  lemma {:induction false} LinearReady(before: Index, chain: seq<Block>, log: seq<Block>, b: Block, h: Block)
    requires Holds(before, chain, log) && Numbered(chain) && Heights(before, |chain|)
    requires (Id(b) in before ==> before[Id(b)] == b) && h.previous == HeadId(chain)
    ensures Num(h) == |chain| + 1
    ensures Holds(before[Id(b) := b], chain, log)
    ensures b.previous == HeadId(chain) ==> HeadFits(h, before[Id(b) := b], chain + [b])
    ensures Heights(before[Id(b) := b], if b.previous == HeadId(chain) || Num(b) > |chain| then Num(b) else |chain|)
    ensures b.previous == HeadId(chain) ==> Num(b) == |chain| + 1
    ensures before[Id(b) := b] - {Id(b)} == before - {Id(b)}
  {
    hide Heights, Holds, HeadFits, Keyed;
    Stores(before, chain, log, b);
    HoldsShape(before, chain, log);
    HeadNum(chain);
    HeightsMore(before, b, |chain|);
    if b.previous == HeadId(chain) {
      FailedHeadFits(before, chain, b, h);
    }
  }

  lemma {:induction false} HoldsShape(index: Index, chain: seq<Block>, log: seq<Block>)
    requires Holds(index, chain, log)
    ensures Keyed(index) && |log| <= |chain|
  {
  }

  /** No stored block has the id that names the predecessor of block 1. */
  lemma {:induction false} NoZero(index: Index)
    requires Keyed(index)
    ensures ZERO_ID !in index
    ensures Heights(index, 0) ==> index == map[]
  {
    assert forall id :: id in index ==> Id(index[id]).num >= 1;
    assert Heights(index, 0) ==> index.Keys == {};
  }

  /** What a failed switch leaves of the index: of the blocks from height c up, all but the failed ones. */
  ghost predicate Spared(before: Index, after: Index, failed: seq<Block>, c: nat) {
    && (forall id :: id in after ==> id in before && after[id] == before[id])
    && forall id :: id in before && id.num >= c && id !in Ids(failed) ==> id in after
  }

  lemma {:induction false} SparedIs(index: Index, left: Index, after: Index, bad: seq<Block>, failed: seq<Block>,
                                    lib: nat, lib': nat, c: nat)
    requires LeftOver(index, left, lib) && LeftOver(left - Ids(bad), after, lib') && lib <= c && lib' <= c
    requires forall x :: x in bad <==> x in failed
    ensures Spared(index, after, failed, c)
  {
    assert Ids(bad) == Ids(failed);
  }

  /** Applying forgets exactly the blocks that are more than one below the last irreversible one. */
  lemma {:induction false} TrimmedIs(index: Index, head: nat, lib: nat)
    requires lib <= head
    ensures forall id :: id in Trimmed(index, head, lib) <==> id in index && id.num + 1 >= lib
    ensures forall id :: id in Trimmed(index, head, lib) ==> Trimmed(index, head, lib)[id] == index[id]
  {
  }

  lemma {:induction false} LeftOverKeys(before: Index, after: Index, lib: nat)
    requires LeftOver(before, after, lib)
    ensures after.Keys <= before.Keys
  {
  }

  lemma {:induction false} LeftOverSelf(index: Index, lib: nat)
    ensures LeftOver(index, index, lib)
  {
  }

  lemma {:induction false} LeftOverTrimmed(before: Index, index: Index, was: nat, head: nat, lib: nat)
    requires LeftOver(before, index, was) && was <= lib <= head
    ensures LeftOver(before, Trimmed(index, head, lib), lib)
  {
  }

  /** A stored block survives trimming and the removal of blocks that it is none of. */
  lemma {:induction false} SurvivesRemoval(index: Index, left: Index, b: Block, bad: seq<Block>, lib: nat)
    requires LeftOver(index, left, lib) && Id(b) in index && index[Id(b)] == b && Num(b) + 1 >= lib
    requires forall x :: x in bad ==> Id(x) != Id(b)
    ensures Id(b) in left - Ids(bad) && (left - Ids(bad))[Id(b)] == b
  {
  }

  /** Block k of a branch that is being pushed is still stored, and its step is the next of the replay. */
  lemma {:induction false} PushNext(rules: Rules, genesis: State, before: Index, after: Index, base: seq<Block>,
                                    up: seq<Block>, k: nat, state: State)
    requires LeftOver(before, after, state.lib) && Stored(before, up) && Numbered(base + up) && k < |up|
    requires state.lib <= |base| + k && Replay(rules, genesis, base + up[..k]) == Some(state)
    ensures Id(up[k]) in after && after[Id(up[k])] == up[k]
    ensures base + up[..k + 1] == base + up[..k] + [up[k]]
    ensures Replay(rules, genesis, base + up[..k + 1]) == Step(rules, state, up[k])
  {
    hide Replay;
    NumberedAt(base + up, |base| + k);
    assert (base + up)[|base| + k] == up[k];
    assert base + up[..k + 1] == base + up[..k] + [up[k]];
    ReplayPush(rules, genesis, base + up[..k], up[k]);
  }

  /** The blocks a caller keeps alive, by id. */
  function Held(blocks: seq<Block>): (held: Index)
    ensures Keyed(held)
  {
    if blocks == [] then map[] else
      var last := blocks[|blocks| - 1];
      Held(blocks[..|blocks| - 1])[Id(last) := last]
  }

  lemma {:induction false} HeldStores(blocks: seq<Block>)
    requires forall i, j :: 0 <= i < j < |blocks| ==> Id(blocks[i]) != Id(blocks[j])
    ensures Stored(Held(blocks), blocks)
  {
    if blocks != [] {
      var n := |blocks| - 1;
      HeldStores(blocks[..n]);
      forall i | 0 <= i < n
        ensures Id(blocks[i]) in Held(blocks) && Held(blocks)[Id(blocks[i])] == blocks[i]
      {
        assert blocks[..n][i] == blocks[i];
      }
    }
  }

  lemma {:induction false} HeadStored(index: Index, chain: seq<Block>, log: seq<Block>)
    requires Holds(index, chain, log) && Numbered(chain)
    ensures chain != [] ==> HeadId(chain) in index && index[HeadId(chain)] == chain[|chain| - 1]
    ensures chain == [] ==> HeadId(chain) !in index
  {
    NoZero(index);
    if chain != [] {
      HoldsAt(index, chain, log, |chain| - 1);
    }
  }

  /** A node that has just been opened. */
  lemma {:induction false} Opened(rules: Rules, genesis: State, blocks: seq<Block>, state: State)
    requires Lawful(rules) && Genesis(genesis) && Replay(rules, genesis, blocks) == Some(state)
    ensures Consistent(rules, genesis, blocks, state, [], blocks)
    ensures blocks == [] ==> Holds(map[], blocks, blocks)
    ensures blocks != [] ==>
      var last := blocks[|blocks| - 1];
      Holds(map[][Id(last) := last], blocks, blocks) && Num(last) == |blocks|
  {
    hide Replay;
    ReplayNumbers(rules, genesis, blocks);
    if blocks != [] {
      NumberedAt(blocks, |blocks| - 1);
    }
  }

  lemma {:induction false} TipAbove(index: Index, tip: Block, n: nat)
    requires Id(tip) in index && Num(tip) > n
    ensures !Heights(index, n)
  {
  }

  lemma {:induction false} StoredAgain(index: Index, b: Block)
    requires Keyed(index) && (Id(b) in index ==> index[Id(b)] == b)
    ensures Keyed(index[Id(b) := b]) && (Id(b) in index ==> index[Id(b) := b] == index)
  {
  }
}
