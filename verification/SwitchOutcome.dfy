/** What a node is left with after it has tried a higher branch: the new chain, the old one, or neither. */
module SwitchOutcome {
  import opened Wrappers
  import opened Blocks
  import opened ForkDatabase
  import opened ChainReplay
  import opened ChainIndex
  import opened ForkSwitch

  /** A switch that has gone through: the chain is the part below the fork and the new branch, and what was
      popped has its transactions queued in chain order. */
  ghost predicate SwitchDone(index: Index, before: seq<Block>, queue: seq<Transaction>, tip: Block,
                             after: seq<Block>, popped: seq<Transaction>, c: int, up: seq<Block>) {
    && 0 <= c < |before| && ForkOf(index, before, tip, c, up)
    && after == before[..c] + up && popped == Transactions(before[c..]) + queue
  }

  /** A switch that has failed: the chain is as before, the failed block and those above it are forgotten,
      and the transactions of both unwound parts are queued. */
  ghost predicate SwitchUndone(rules: Rules, genesis: State, index: Index, before: seq<Block>, queue: seq<Transaction>,
                               tip: Block, after: seq<Block>, popped: seq<Transaction>, left: Index, c: int,
                               up: seq<Block>) {
    && 0 <= c < |before| && ForkOf(index, before, tip, c, up)
    && var good := Good(rules, genesis, before[..c], up);
    && good < |up| && (forall i :: good <= i < |up| ==> Id(up[i]) !in left)
    && after == before && popped == Transactions(up[..good]) + (Transactions(before[c..]) + queue)
  }

  /** The chain that a stranded node is left with: what it had logged when it got stuck. */
  ghost function StrandedAt(rules: Rules, genesis: State, chain: seq<Block>, log: seq<Block>, c: nat,
                            up: seq<Block>): seq<Block> {
    if c < |log| then log else
      var tried := UpTo(chain, c) + up[..Good(rules, genesis, UpTo(chain, c), up)];
      UpTo(tried, LibOf(rules, genesis, tried))
  }

  /** What a stranded node queues besides what was queued: at least everything that it has undone. */
  ghost function Undone(rules: Rules, genesis: State, chain: seq<Block>, log: seq<Block>, c: nat,
                        up: seq<Block>): seq<Transaction> {
    var n := |StrandedAt(rules, genesis, chain, log, c, up)|;
    var tried := UpTo(chain, c) + up[..Good(rules, genesis, UpTo(chain, c), up)];
    if c < |log| then Transactions(From(chain, n)) else Transactions(From(tried, n)) + Transactions(From(chain, c))
  }

  function From(blocks: seq<Block>, n: nat): seq<Block> {
    if n <= |blocks| then blocks[n..] else []
  }

  /** A stranded node: its chain is what it had logged, nothing can be undone, and the fork database's head has
      gone down to the fork, where its predecessor is not stored. It has neither its old chain nor the new one
      or, if its chain was all logged, it has lost the fork database's head. */
  ghost predicate SwitchStranded(rules: Rules, genesis: State, before: seq<Block>, log0: seq<Block>,
                                 queue: seq<Transaction>, after: seq<Block>, undo: seq<State>, log: seq<Block>,
                                 popped: seq<Transaction>, left: Index, head: Option<Block>, c: int,
                                 up: seq<Block>) {
    && 0 <= c < |before| && after == log == StrandedAt(rules, genesis, before, log0, c, up) && undo == []
    && head.Some? && Num(head.value) <= c + 1 && head.value.previous !in left
    && EndsWith(popped, Undone(rules, genesis, before, log0, c, up) + queue)
    && (after != before || head != Some(before[|before| - 1]))
  }

  /** A branch above the log whose first k blocks apply and the next does not: the old chain comes back if those k make
      nothing above the fork irreversible, and otherwise the node is left with what they make irreversible. */
  lemma {:induction false} FailMeans(rules: Rules, genesis: State, index: Index, chain: seq<Block>, log: seq<Block>,
                                     tip: Block, c: nat, up: seq<Block>, k: nat, s: State)
    requires Keyed(index) && Lawful(rules) && Genesis(genesis) && |log| <= c <= |chain|
    requires Fork(index, chain, tip) == c && NewBranch(index, chain, tip) == up && k < |up|
    requires Replay(rules, genesis, chain[..c] + up[..k]) == Some(s)
    requires Replay(rules, genesis, chain[..c] + up[..k + 1]).None?
    ensures SwitchVerdict(rules, genesis, index, chain, log, tip) == if s.lib <= c then SwitchFailed else Stranded
    ensures s.lib <= c + k
    ensures StrandedAt(rules, genesis, chain, log, c, up) == (chain[..c] + up[..k])[..s.lib]
  {
    hide Replay, Fork, NewBranch, Good;
    GoodIs(rules, genesis, chain[..c], up, k);
    ReplayNumbers(rules, genesis, chain[..c] + up[..k]);
  }

  /** Whether a stranded node still has what a running one has. */
  ghost predicate InOrder(chain: seq<Block>, left: Index, head: Block) {
    Heights(left, |chain|) && (Num(head) == |chain| || head.previous == HeadId(chain))
  }

  lemma {:induction false} ChainedNums(line: seq<Block>, i: nat)
    requires Chained(line) && i < |line|
    ensures Num(line[i]) == Num(line[0]) + i
  {
    if i > 0 {
      assert line[i].previous == Id(line[i - 1]);
      ChainedNums(line, i - 1);
    }
  }

  lemma {:induction false} HeldWithin(index: Index, blocks: seq<Block>)
    requires forall x :: x in blocks ==> Id(x) in index && index[Id(x)] == x
    ensures index + Held(blocks) == index
  {
    if blocks != [] {
      var n := |blocks| - 1;
      HeldWithin(index, blocks[..n]);
      assert blocks[n] in blocks;
      assert index + Held(blocks) == (index + Held(blocks[..n]))[Id(blocks[n]) := blocks[n]];
    }
  }

  lemma {:induction false} ReversedMembers(down: seq<Block>)
    ensures forall x :: x in down <==> x in Reversed(down)
  {
    assert forall i :: 0 <= i < |down| ==> down[i] == Reversed(down)[|down| - 1 - i];
  }

  lemma {:induction false} BottomSame(index: Index, b: Block)
    requires Keyed(index) && Num(Bottom(index, b)) == Num(b)
    ensures Bottom(index, b) == b
  {
  }

  /** Where the fork database's head ends when the fork is below the log. */
  lemma {:induction false} BelowLog(rules: Rules, genesis: State, index: Index, all: seq<Block>, log: seq<Block>,
                                    tip: Block, first: seq<Block>, second: seq<Block>, c: nat,
                                    queue: seq<Transaction>, popped: seq<Transaction>)
    requires Keyed(index) && Fetched(index, all, log, tip, first, second, c) && c < |log| <= |all|
    requires Numbered(all) && tip.previous != HeadId(all) && Num(tip) == |all| + 1
    requires EndsWith(popped, Transactions(all[|log|..]) + queue)
    ensures Keyed(index + Held(first))
    ensures var h := Bottom(index + Held(first), tip); var up := NewBranch(index, all, tip);
            && SwitchStranded(rules, genesis, all, log, queue, log, [], log, popped, index, Some(h), c, up)
            && !InOrder(log, index, h)
  {
    hide Replay, Fork, NewBranch, Transactions, Bottom, Held, EndsWith, Numbered;
    var up := Reversed(first);
    ReversedMembers(first);
    assert forall i :: 0 <= i < |up| ==> Id(up[i]) in index && index[Id(up[i])] == up[i];
    HeldWithin(index, first);
    assert up[|up| - 1] == tip;
    ChainedNums(up, |up| - 1);
    BottomOfLine(index, up, |up| - 1);
    var h := Bottom(index, up[0]);
    assert Id(tip) in index && Id(tip).num > |log|;
    if log == all && h == all[|all| - 1] {
      NumberedAt(all, |all| - 1);
      BottomSame(index, up[0]);
      NotChainHead(index, all, tip, up, c);
    }
  }

  lemma {:induction false} NotChainHead(index: Index, all: seq<Block>, tip: Block, up: seq<Block>, c: nat)
    requires Keyed(index) && c < |all| && |up| == |all| + 1 - c && Chained(up) && up[|up| - 1] == tip
    requires Num(up[0]) == c + 1 && tip.previous != HeadId(all)
    ensures c == |all| - 1 ==> up[0] != all[|all| - 1]
  {
    if c == |all| - 1 {
      assert up[1].previous == Id(up[0]);
    }
  }

  /** The chain's block c, if there is one, is still there after the failed blocks have been dropped, if block
      c + 1 is the last irreversible one. */
  lemma {:induction false} CommonStays(index: Index, left: Index, all: seq<Block>, log0: seq<Block>, tip: Block,
                                       c: nat,
                                       up: seq<Block>, bad: seq<Block>)
    requires Holds(index, all, log0) && Numbered(all) && ForkOf(index, all, tip, c, up) && |log0| <= c && 1 <= c
    requires LeftOver(index, left, c + 1) && forall x :: x in bad ==> x in up
    ensures Id(all[c - 1]) in left - Ids(bad) && up[0].previous == Id(all[c - 1])
  {
    hide Holds, LeftOver, Keyed, Ids;
    HoldsAt(index, all, log0, c - 1);
    NumberedAt(all, c - 1);
    BranchNums(all, up, c);
    SurvivesRemoval(index, left, all[c - 1], bad, c + 1);
    assert Follows(all[..c] + up, c);
  }

  /** Where the fork database's head ends when the branch has become irreversible above the fork. */
  lemma {:induction false} HeadAbove(index: Index, left: Index, all: seq<Block>, log0: seq<Block>, tip: Block, c: nat,
                                     first: seq<Block>, second: seq<Block>, pushed: nat, chain: seq<Block>,
                                     lib: nat)
    requires Failing(index, left, all, log0, tip, c, first, second, pushed, chain, lib) && c < lib && Keyed(left)
    ensures var rest := left - Ids(first[..|first| - pushed]);
            var h := Bottom(rest + Held(first), Reversed(first)[pushed]);
            Num(h) <= c + 1 && h.previous !in rest && (Num(h) == lib ==> c == 0 && lib == 1)
  {
    hide Holds, Numbered, LeftOver, Bottom, Held, Ids, Fork, NewBranch, Stored, Chained;
    var up, bad := Reversed(first), first[..|first| - pushed];
    var alive := (left - Ids(bad)) + Held(first);
    SwitchReady(index, all, log0, tip, c, up);
    BranchNums(all, up, c);
    LinePart(left - Ids(bad), first, up, pushed);
    BottomOfLine(alive, up[..pushed + 1], pushed);
    if 1 <= c && lib == c + 1 {
      Suffix(first, pushed);
      CommonStays(index, left, all, log0, tip, c, up, bad);
      BottomNext(alive, up[0]);
    }
  }

  lemma {:induction false} BottomNext(index: Index, b: Block)
    requires Keyed(index) && b.previous in index
    ensures Num(Bottom(index, b)) < Num(b)
  {
  }

  /** At the first block, the heights stay in order only if the chain had no other. */
  lemma {:induction false} HeightsAbove(index: Index, left: Index, all: seq<Block>, log0: seq<Block>, tip: Block,
                                        first: seq<Block>, second: seq<Block>, pushed: nat, chain: seq<Block>)
    requires Failing(index, left, all, log0, tip, 0, first, second, pushed, chain, 1)
    requires Heights(index - {Id(tip)}, |all|)
    ensures var rest := left - Ids(first[..|first| - pushed]); Heights(rest, 1) <==> |all| == 1
  {
    hide Holds, Numbered, Held, Ids, Fork, NewBranch, Stored, Chained, ForkOf;
    var up, bad := Reversed(first), first[..|first| - pushed];
    var rest := left - Ids(bad);
    if |all| > 1 {
      Suffix(first, pushed);
      OldBlockStays(index, left, all, log0, tip, 0, up, bad, 1, |all| - 1);
      NumberedAt(all, |all| - 1);
    } else {
      assert tip in bad && Id(tip) in Ids(bad) by {
        assert bad[0] == tip;
        IdIn(bad, tip);
      }
    }
  }

  lemma {:induction false} IdIn(blocks: seq<Block>, b: Block)
    requires b in blocks
    ensures Id(b) in Ids(blocks)
  {
  }

  /** Where a node is left when the branch has become irreversible above the fork. */
  lemma {:induction false} AboveFork(rules: Rules, genesis: State, index: Index, left: Index, all: seq<Block>,
                                     log0: seq<Block>, tip: Block, c: nat, first: seq<Block>, second: seq<Block>,
                                     pushed: nat, chain: seq<Block>, state: State, queue: seq<Transaction>,
                                     popped: seq<Transaction>, rest: Index, head: Option<Block>)
    requires Failing(index, left, all, log0, tip, c, first, second, pushed, chain, state.lib) && Keyed(left)
    requires Replay(rules, genesis, chain) == Some(state) && c < state.lib <= |chain|
    requires pushed == Good(rules, genesis, all[..c], Reversed(first))
    requires EndsWith(popped, Transactions(chain[state.lib..]) + (Transactions(all[c..]) + queue))
    requires Heights(index - {Id(tip)}, |all|) && GoneDown(left, rest, first, pushed, head)
    ensures head.Some? && (InOrder(chain[..state.lib], rest, head.value) <==> log0 == [] && |all| == 1)
    ensures SwitchStranded(rules, genesis, all, log0, queue, chain[..state.lib], [], chain[..state.lib], popped, rest, head,
                           c, Reversed(first))
  {
    hide Replay, Holds, Numbered, LeftOver, Bottom, Held, Ids, Fork, NewBranch, Stored, Chained, Transactions, Good,
      Heights, EndsWith;
    var up, lib, last := Reversed(first), state.lib, chain[..state.lib];
    HeadAbove(index, left, all, log0, tip, c, first, second, pushed, chain, lib);
    assert last[c] == up[0];
    assert last == (all[..c] + up)[..lib];
    NumberedPrefix(all[..c] + up, lib);
    HeadNum(last);
    assert last == StrandedAt(rules, genesis, all, log0, c, up);
    assert Transactions(chain[lib..]) + (Transactions(all[c..]) + queue)
        == (Transactions(chain[lib..]) + Transactions(all[c..])) + queue;
    if c == 0 && lib == 1 {
      HeightsAbove(index, left, all, log0, tip, first, second, pushed, chain);
    }
  }

  /** A branch all of whose blocks apply becomes the chain. */
  lemma {:induction false} WentThrough(rules: Rules, genesis: State, index: Index, all: seq<Block>, log: seq<Block>,
                                       tip: Block, first: seq<Block>, second: seq<Block>, c: nat,
                                       queue: seq<Transaction>, popped: seq<Transaction>, base: seq<Block>,
                                       after: seq<Block>, left: Index)
    requires AtFork(index, all, log, tip, first, second, c, base, queue, popped)
    requires after == base + Reversed(first)[..|first|] && left.Keys <= index.Keys
    requires |first| == Good(rules, genesis, base, Reversed(first))
    ensures SwitchDone(index, all, queue, tip, after, popped, c, Reversed(first))
    ensures SwitchVerdict(rules, genesis, index, all, log, tip) == Switched
    ensures |after| == |all| + 1 && after[|after| - 1] == tip && Num(tip) == |after| && Heights(left, |after|)
  {
    hide Replay, Held, Fork, NewBranch, Keyed, Chained, Stored, Transactions, ForkOf, Holds, Numbered, Good, Fetched;
    AtForkShape(index, all, log, tip, first, second, c, base, queue, popped);
    FetchedShape(index, all, log, tip, first, second, c);
    Whole(base, Reversed(first), |first|);
  }

  /** A branch that fails without having made anything above the fork irreversible leaves the chain as it was. */
  lemma {:induction false} WasUndone(rules: Rules, genesis: State, index: Index, before: Index, all: seq<Block>,
                                     log: seq<Block>,
                                     tip: Block, first: seq<Block>, second: seq<Block>, c: nat,
                                     queue: seq<Transaction>, base: seq<Block>, popped0: seq<Transaction>,
                                     last: State, pushed: nat, after: seq<Block>, head: Option<Block>,
                                     popped: seq<Transaction>, left: Index)
    requires AtFork(index, all, log, tip, first, second, c, base, queue, popped0)
    requires pushed == Good(rules, genesis, base, Reversed(first)) < |first|
    requires Replay(rules, genesis, base + Reversed(first)[..pushed]) == Some(last) && last.lib <= c
    requires Restored(left, before, all, c, first, pushed, after, head, popped0, popped) && before.Keys <= index.Keys
    ensures SwitchUndone(rules, genesis, index, all, queue, tip, after, popped, left, c, Reversed(first))
    ensures SwitchVerdict(rules, genesis, index, all, log, tip) == SwitchFailed
    ensures after == all != [] && head == Some(all[|all| - 1]) && Num(all[|all| - 1]) == |all| && Heights(left, |all|)
  {
    hide Replay, Held, Fork, NewBranch, Keyed, Chained, Stored, Transactions, ForkOf, Holds, Numbered, Good, Fetched;
    AtForkShape(index, all, log, tip, first, second, c, base, queue, popped0);
    FetchedShape(index, all, log, tip, first, second, c);
    NumberedAt(all, |all| - 1);
    assert Reversed(first)[|first| - 1] == tip;
  }

  lemma {:induction false} StrandedVerdict(rules: Rules, genesis: State, index: Index, all: seq<Block>,
                                           log: seq<Block>,
                                           tip: Block, first: seq<Block>, second: seq<Block>, c: nat,
                                           tried: seq<Block>, last: State, pushed: nat)
    requires Keyed(index) && Fetched(index, all, log, tip, first, second, c) && pushed < |first|
    requires pushed == Good(rules, genesis, all[..c], Reversed(first)) && tried == all[..c] + Reversed(first)[..pushed]
    requires Replay(rules, genesis, tried) == Some(last) && last.lib > c
    ensures SwitchVerdict(rules, genesis, index, all, log, tip) == Stranded
  {
    hide Replay, Held, Fork, NewBranch, Keyed, Chained, Stored, ForkOf, Good;
  }

  lemma {:induction false} StrandedLost(rules: Rules, genesis: State, before: seq<Block>, log0: seq<Block>,
                                        queue: seq<Transaction>, after: seq<Block>, undo: seq<State>, log: seq<Block>,
                                        popped: seq<Transaction>, left: Index, head: Option<Block>, c: int,
                                        up: seq<Block>)
    requires SwitchStranded(rules, genesis, before, log0, queue, after, undo, log, popped, left, head, c, up)
    ensures before != [] && (after != before || head != Some(before[|before| - 1]))
  {
  }
}
