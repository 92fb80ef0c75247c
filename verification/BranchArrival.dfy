/** A higher branch that reaches the node block by block, from its fork with the chain up to its tip. */
module BranchArrival {
  import opened Wrappers
  import opened Blocks
  import opened ForkDatabase
  import opened ChainReplay
  import opened ChainIndex
  import opened ForkSwitch
  import opened SwitchOutcome
  import opened Finality
  import opened ChainDatabase

  /** The branch `up` leaves the chain after block c and is one block higher. */
  ghost predicate Rival(chain: seq<Block>, c: nat, up: seq<Block>) {
    && c < |chain| && c + |up| == |chain| + 1 && Chained(up)
    && up[0].previous == HeadId(chain[..c]) && Id(up[0]) != Id(chain[c])
  }

  /** A block id determines its block, for those stored and those of the branch. */
  ghost predicate IdsAgree(index: Index, up: seq<Block>) {
    && (forall i :: 0 <= i < |up| && Id(up[i]) in index ==> index[Id(up[i])] == up[i])
    && forall i, j :: 0 <= i < |up| && 0 <= j < |up| && Id(up[i]) == Id(up[j]) ==> up[i] == up[j]
  }

  lemma {:induction false} RivalNums(chain: seq<Block>, c: nat, up: seq<Block>, i: nat)
    requires Numbered(chain) && Rival(chain, c, up) && i < |up|
    ensures Num(up[i]) == c + i + 1
    ensures i > 0 ==> up[i].previous == Id(up[i - 1])
  {
    if i > 0 {
      RivalNums(chain, c, up, i - 1);
    } else {
      NumberedPrefix(chain, c);
      HeadNum(chain[..c]);
    }
  }

  /** The branch and the chain have no block in common above the fork. */
  lemma {:induction false} RivalApart(index: Index, chain: seq<Block>, log: seq<Block>, c: nat, up: seq<Block>, j: nat)
    requires Holds(index, chain, log) && Numbered(chain) && |log| <= c && Rival(chain, c, up)
    requires j < |up| && c + j < |chain| && IdsAgree(index, up)
    ensures Id(up[j]) != Id(chain[c + j])
  {
    if j > 0 {
      RivalApart(index, chain, log, c, up, j - 1);
      HoldsAt(index, chain, log, c + j);
      assert Follows(chain, c + j);
      assert up[j].previous == Id(up[j - 1]);
    }
  }

  /** Walking down from the tip of a stored line reaches its blocks. */
  lemma {:induction false} LineAncestor(index: Index, up: seq<Block>, c: nat, i: nat, k: nat)
    requires Keyed(index) && Chained(up) && Stored(index, up) && i <= k < |up| && Num(up[0]) == c + 1
    requires forall j :: 0 <= j < |up| ==> Num(up[j]) == c + j + 1
    ensures Ancestor(index, up[k], c + i + 1) == Some(up[i])
  {
    if i < k {
      assert up[k].previous == Id(up[k - 1]);
      LineAncestor(index, up, c, i, k - 1);
    }
  }

  lemma {:induction false} LineUp(index: Index, up: seq<Block>, c: nat, k: nat)
    requires Keyed(index) && Chained(up) && Stored(index, up) && k < |up| && Num(up[0]) == c + 1
    requires forall j :: 0 <= j < |up| ==> Num(up[j]) == c + j + 1
    ensures Ancestor(index, up[k], c + 1).Some? && UpFrom(index, up[k], c) == up[..k + 1]
  {
    LineAncestor(index, up, c, 0, k);
    if k > 0 {
      assert up[k].previous == Id(up[k - 1]);
      LineUp(index, up, c, k - 1);
    }
  }

  /** Above the fork the branch and the chain have no common ancestor. */
  lemma {:induction false} RivalLeaves(index: Index, chain: seq<Block>, log: seq<Block>, c: nat, up: seq<Block>, m: nat)
    requires Holds(index, chain, log) && Numbered(chain) && |log| <= c < m < |chain| && Rival(chain, c, up)
    requires Keyed(index) && Stored(index, up) && IdsAgree(index, up)
    requires forall j :: 0 <= j < |up| ==> Num(up[j]) == c + j + 1
    ensures !Common(index, up[|up| - 1], chain[|chain| - 1], m)
  {
    hide Ancestor, Holds, Numbered, IdsAgree, Stored, Keyed;
    LineAncestor(index, up, c, m - c, |up| - 1);
    ChainAncestorId(index, chain, log, m);
    RivalApart(index, chain, log, c, up, m - c - 1);
    assert up[m - c].previous == Id(up[m - c - 1]);
  }

  /** Once the whole branch is stored, its fork with the chain is found where it is, and it is the branch found. */
  lemma {:induction false} RivalFound(index: Index, chain: seq<Block>, log: seq<Block>, c: nat, up: seq<Block>)
    requires Holds(index, chain, log) && Numbered(chain) && |log| <= c && Rival(chain, c, up)
    requires Stored(index, up) && IdsAgree(index, up)
    ensures Keyed(index) && Fork(index, chain, up[|up| - 1]) == c && NewBranch(index, chain, up[|up| - 1]) == up
  {
    hide Ancestor, Holds, Numbered, IdsAgree, Stored, Keyed, UpFrom;
    HoldsShape(index, chain, log);
    var tip, last := up[|up| - 1], chain[|chain| - 1];
    forall i | 0 <= i < |up|
      ensures Num(up[i]) == c + i + 1
    {
      RivalNums(chain, c, up, i);
    }
    NumberedAt(chain, |chain| - 1);
    LineAncestor(index, up, c, 0, |up| - 1);
    ChainAncestorId(index, chain, log, c);
    assert Common(index, tip, last, c);
    CommonHeights(index, tip, last);
    forall m | c < m < |chain|
      ensures !Common(index, tip, last, m)
    {
      RivalLeaves(index, chain, log, c, up, m);
    }
    DeepestIsForkHeight(index, tip, last, c);
    LineUp(index, up, c, |up| - 1);
    assert up[..|up|] == up;
  }

  /** What the next block of an arriving branch meets at a node: its predecessor is stored, it is not what the chain
      is waiting for, and below the tip it is no higher than the chain. */
  lemma {:induction false} NextFits(index: Index, chain: seq<Block>, log: seq<Block>, c: nat, up: seq<Block>, i: nat)
    requires Holds(index, chain, log) && Numbered(chain) && |log| <= c && Rival(chain, c, up) && IdsAgree(index, up)
    requires i < |up| && Stored(index, up[..i])
    ensures up[i].previous == ZERO_ID || up[i].previous in index
    ensures up[i].previous != HeadId(chain) && Num(up[i]) == c + i + 1
  {
    RivalNums(chain, c, up, i);
    HeadNum(chain);
    if i == 0 {
      if c > 0 {
        HoldsAt(index, chain, log, c - 1);
      }
    } else {
      assert up[..i][i - 1] == up[i - 1];
      if i == |up| - 1 {
        RivalApart(index, chain, log, c, up, i - 1);
      }
    }
  }

  /** Storing the next block of the branch keeps what is stored of it, and the chain. */
  lemma {:induction false} KeepNext(index: Index, chain: seq<Block>, log: seq<Block>, c: nat, up: seq<Block>, i: nat)
    requires Holds(index, chain, log) && Numbered(chain) && |log| <= c && Rival(chain, c, up) && IdsAgree(index, up)
    requires i < |up| && Stored(index, up[..i])
    ensures up[i].previous == ZERO_ID || up[i].previous in index
    ensures up[i].previous != HeadId(chain) && Num(up[i]) == c + i + 1 && |up| == |chain| + 1 - c
    ensures Id(up[i]) in index ==> index[Id(up[i])] == up[i]
    ensures var stored := index[Id(up[i]) := up[i]];
            Stored(stored, up[..i + 1]) && IdsAgree(stored, up) && Holds(stored, chain, log)
  {
    hide HeadId, Numbered, Holds;
    NextFits(index, chain, log, c, up, i);
    Stores(index, chain, log, up[i]);
    assert forall j :: 0 <= j < i ==> up[..i][j] == up[j];
  }

  /** The tip of a branch whose other blocks are stored meets the fork with that branch. */
  lemma {:induction false} TipMeets(index: Index, chain: seq<Block>, log: seq<Block>, c: nat, up: seq<Block>)
    requires Holds(index, chain, log) && Numbered(chain) && |log| <= c && Rival(chain, c, up) && IdsAgree(index, up)
    requires Stored(index, up[..|up| - 1])
    ensures var tip := up[|up| - 1];
            && (tip.previous == ZERO_ID || tip.previous in index) && tip.previous != HeadId(chain)
            && Num(tip) == |chain| + 1 && (Id(tip) in index ==> index[Id(tip)] == tip)
    ensures var tip, stored := up[|up| - 1], index[Id(up[|up| - 1]) := up[|up| - 1]];
            Keyed(stored) && Fork(stored, chain, tip) == c < |chain| && NewBranch(stored, chain, tip) == up
  {
    hide HeadId, Numbered, Holds, IdsAgree, Fork, NewBranch, Stored, Keyed, Chained;
    KeepNext(index, chain, log, c, up, |up| - 1);
    assert up[..|up| - 1 + 1] == up;
    RivalFound(index[Id(up[|up| - 1]) := up[|up| - 1]], chain, log, c, up);
  }

  /** Pushes a linked block of a side branch that is no higher than the chain. */
  method KeepAside(node: Chain, b: Block)
    requires node.Running() && node.forks.head.Some? && !node.Ahead()
    requires b.previous == ZERO_ID || b.previous in node.forks.index
    requires b.previous != HeadId(node.chain) && Num(b) <= |node.chain| < Num(b) + node.forks.maxSize
    requires Id(b) in node.forks.index ==> node.forks.index[Id(b)] == b
    modifies node, node.forks
    ensures node.Running() && !node.Ahead() && node.forks.head == old(node.forks.head)
    ensures node.chain == old(node.chain) && node.state == old(node.state) && node.log == old(node.log)
    ensures node.forks.maxSize == old(node.forks.maxSize) && node.forks.index == old(node.forks.index)[Id(b) := b]
    ensures node.popped == old(node.popped)
  {
    hide Consistent, Replay, Holds, Heights, Stored, Numbered, Verdict, Runs, LibOf, Fork, NewBranch, Keyed, HeadId, Step,
      Ids, LogExact;
    node.RunningShape();
    node.SoundShape();
    var r := node.PushBlock(b);
    assert r == KeptAside;
  }

  /** Pushes the blocks of a higher branch below its tip. They are kept aside, stored, and nothing else changes. */
  method PushBelowTip(node: Chain, up: seq<Block>, ghost c: nat)
    requires node.Running() && node.forks.head.Some? && !node.Ahead()
    requires |node.log| <= c && Rival(node.chain, c, up) && IdsAgree(node.forks.index, up)
    requires |node.chain| < c + 1 + node.forks.maxSize
    modifies node, node.forks
    ensures node.Running() && !node.Ahead() && node.forks.head == old(node.forks.head)
    ensures node.chain == old(node.chain) && node.state == old(node.state) && node.log == old(node.log)
    ensures node.forks.maxSize == old(node.forks.maxSize) && node.popped == old(node.popped)
    ensures Stored(node.forks.index, up[..|up| - 1]) && IdsAgree(node.forks.index, up)
    ensures old(node.forks.index).Keys <= node.forks.index.Keys
  {
    hide Consistent, Replay, Holds, Heights, Stored, Numbered, Runs, IdsAgree, HeadId, Chained, Ids;
    NothingStored(node.forks.index, up);
    var i := 0;
    while i < |up| - 1
      invariant 0 <= i <= |up| - 1 && node.Running() && !node.Ahead() && node.forks.head == old(node.forks.head)
      invariant node.chain == old(node.chain) && node.state == old(node.state) && node.log == old(node.log)
      invariant node.forks.maxSize == old(node.forks.maxSize) && node.popped == old(node.popped)
      invariant Stored(node.forks.index, up[..i]) && IdsAgree(node.forks.index, up)
      invariant old(node.forks.index).Keys <= node.forks.index.Keys
    {
      node.RunningShape();
      node.SoundShape();
      KeepNext(node.forks.index, node.chain, node.log, c, up, i);
      KeepAside(node, up[i]);
      i := i + 1;
    }
  }

  /** Pushes the blocks of a higher branch in order, as peers send them. All but the tip are kept aside and stored,
      and the tip makes the node try the branch: it becomes the chain exactly if all its blocks apply. Otherwise, if k
      of them apply, the old chain comes back exactly if these make nothing above the fork irreversible; the others
      are then forgotten. The transactions of whatever is undone are queued in chain order. */
  method PushInOrder(node: Chain, up: seq<Block>, ghost c: nat) returns (r: Outcome)
    requires node.Running() && node.forks.head.Some? && !node.Ahead()
    requires |node.log| <= c && Rival(node.chain, c, up) && IdsAgree(node.forks.index, up)
    requires |node.chain| < c + 1 + node.forks.maxSize
    modifies node, node.forks
    ensures c < |old(node.chain)| && (r == Switched || r == SwitchFailed || r == Stranded)
    ensures r == Switched <==> Replay(node.rules, node.genesis, old(node.chain)[..c] + up).Some?
    ensures r == Switched ==> node.Running() && node.chain == old(node.chain)[..c] + up
    ensures r == Switched ==> node.popped == Transactions(old(node.chain)[c..]) + old(node.popped)
    ensures r == Switched ==>
      forall id :: id in old(node.forks.index) && id.num + 1 >= node.state.lib ==> id in node.forks.index
    ensures r == SwitchFailed ==> node.Running() && node.chain == old(node.chain) && node.state == old(node.state)
    ensures forall k: nat | k < |up| && StopsAt(node.rules, node.genesis, old(node.chain)[..c], up, k) ::
      var tried := old(node.chain)[..c] + up[..k];
      var lib := LibOf(node.rules, node.genesis, tried);
      if lib <= c then
        && r == SwitchFailed
        && node.popped == Transactions(up[..k]) + (Transactions(old(node.chain)[c..]) + old(node.popped))
        && (forall i :: k <= i < |up| ==> Id(up[i]) !in node.forks.index)
        && forall id :: id in old(node.forks.index) && id.num >= c && id !in Ids(up[k..]) ==> id in node.forks.index
      else r == Stranded && node.chain == node.log == UpTo(tried, lib) && node.undo == []
  {
    hide Consistent, Replay, Holds, Heights, Stored, Numbered, Verdict, Runs, LibOf, Fork, NewBranch, IdsAgree, Keyed,
      HeadId, Rival, Step, Ids, LogExact, SwitchUndone, SwitchStranded, SwitchDone, LibKnown, Reversible, Tried,
      StopsAt, SwitchVerdict, Spared, Good;
    ghost var chain, queue := node.chain, node.popped;
    PushBelowTip(node, up, c);
    node.RunningShape();
    node.SoundShape();
    TipMeets(node.forks.index, node.chain, node.log, c, up);
    var tip := up[|up| - 1];
    ghost var log := node.log;
    ghost var stored := node.forks.index[Id(tip) := tip];
    r := node.PushBlock(tip);
    forall k: nat | k < |up| && StopsAt(node.rules, node.genesis, chain[..c], up, k)
      ensures BranchFails(node.rules, node.genesis, stored, chain, queue, c, up, k, r, node.chain, node.undo, node.log,
                          node.popped, node.forks.index)
    {
      Fails(node.rules, node.genesis, stored, chain, log, queue, tip, c, up, k, r, node.chain, node.undo, node.log,
            node.popped, node.forks.index, node.forks.head);
    }
    Succeeds(stored, chain, queue, tip, c, up, r, node.chain, node.popped);
  }

  /** The first k blocks of the branch apply and the next does not. */
  ghost predicate StopsAt(rules: Rules, genesis: State, base: seq<Block>, up: seq<Block>, k: nat)
    requires k < |up|
  {
    Replay(rules, genesis, base + up[..k]).Some? && Replay(rules, genesis, base + up[..k + 1]).None?
  }

  ghost predicate BranchFails(rules: Rules, genesis: State, stored: Index, was: seq<Block>, queue: seq<Transaction>, c: nat,
                              up: seq<Block>, k: nat, r: Outcome, after: seq<Block>, undo: seq<State>, log: seq<Block>,
                              popped: seq<Transaction>, left: Index)
    requires c <= |was| && k < |up|
  {
    var tried := was[..c] + up[..k];
    var lib := LibOf(rules, genesis, tried);
    if lib <= c then
      && r == SwitchFailed && popped == Transactions(up[..k]) + (Transactions(was[c..]) + queue)
      && (forall i :: k <= i < |up| ==> Id(up[i]) !in left)
      && forall id :: id in stored && id.num >= c && id !in Ids(up[k..]) ==> id in left
    else r == Stranded && after == log == UpTo(tried, lib) && undo == []
  }

  lemma {:induction false} Fails(rules: Rules, genesis: State, stored: Index, was: seq<Block>, log0: seq<Block>,
                                 queue: seq<Transaction>, tip: Block, c: nat, up: seq<Block>, k: nat, r: Outcome,
                                 after: seq<Block>, undo: seq<State>, log: seq<Block>, popped: seq<Transaction>,
                                 left: Index, head: Option<Block>)
    requires Keyed(stored) && Lawful(rules) && Genesis(genesis) && |log0| <= c < |was| && k < |up|
    requires Fork(stored, was, tip) == c && NewBranch(stored, was, tip) == up && StopsAt(rules, genesis, was[..c], up, k)
    requires r == SwitchVerdict(rules, genesis, stored, was, log0, tip)
    requires r == SwitchFailed ==> SwitchUndone(rules, genesis, stored, was, queue, tip, after, popped, left, c, up)
    requires r == SwitchFailed ==> Spared(stored, left, up[Good(rules, genesis, UpTo(was, c), up)..], c)
    requires r == Stranded ==>
      SwitchStranded(rules, genesis, was, log0, queue, after, undo, log, popped, left, head, c, up)
    ensures BranchFails(rules, genesis, stored, was, queue, c, up, k, r, after, undo, log, popped, left)
  {
    hide Replay, Fork, NewBranch, SwitchVerdict, Transactions, Lawful, Undone, StrandedAt, ForkOf, Good, Ids;
    var s := Replay(rules, genesis, was[..c] + up[..k]).value;
    FailMeans(rules, genesis, stored, was, log0, tip, c, up, k, s);
    GoodIs(rules, genesis, was[..c], up, k);
  }

  lemma {:induction false} Succeeds(stored: Index, was: seq<Block>, queue: seq<Transaction>, tip: Block, c: nat,
                                    up: seq<Block>, r: Outcome, after: seq<Block>, popped: seq<Transaction>)
    requires r == Switched ==> SwitchDone(stored, was, queue, tip, after, popped, c, up)
    ensures r == Switched ==>
      c < |was| && after == was[..c] + up && popped == Transactions(was[c..]) + queue
  {
    hide Transactions, ForkOf;
  }

  lemma {:induction false} NothingStored(index: Index, up: seq<Block>)
    ensures Stored(index, up[..0])
  {
  }
}
