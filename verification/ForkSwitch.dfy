/** Leaving the chain for a higher branch: where the two part, what becomes of the attempt, and the chain
    and the fork database's head while blocks are taken back. */
module ForkSwitch {
  import opened Wrappers
  import opened Blocks
  import opened ForkDatabase
  import opened ChainReplay
  import opened ChainIndex

  /** What became of a pushed block: refused by the fork database, applied on top of the head, failed
      there, kept as part of a side branch, or the tip of a higher branch. A higher branch may share no stored
      block with the chain, be switched to, fail and be unwound, or strand the node in between. */
  datatype Outcome = Refused | Extended | Failed | KeptAside | Unconnected | Switched | SwitchFailed | Stranded

  /** The height at which the branch of `tip` leaves the chain, or -1 if no stored blocks lead to one. */
  ghost function Fork(index: Index, chain: seq<Block>, tip: Block): (c: int)
    requires Keyed(index)
    ensures c >= -1
  {
    if chain == [] then -1 else ForkHeight(index, tip, chain[|chain| - 1])
  }

  /** The blocks of the branch of `tip` above the fork. */
  ghost function NewBranch(index: Index, chain: seq<Block>, tip: Block): (up: seq<Block>)
    requires Keyed(index)
    ensures Fork(index, chain, tip) >= 0 ==> |up| == Num(tip) - Fork(index, chain, tip) >= 1 && up[|up| - 1] == tip
  {
    var c := Fork(index, chain, tip);
    if c < 0 then [] else
      ForkHeightIs(index, tip, chain[|chain| - 1]);
      UpFrom(index, tip, c)
  }

  /** The chain's blocks up to number c. */
  function UpTo(chain: seq<Block>, c: nat): seq<Block> {
    if c <= |chain| then chain[..c] else chain
  }

  /** The last irreversible block after the blocks; 0 if they do not apply. */
  ghost function LibOf(rules: Rules, genesis: State, blocks: seq<Block>): nat {
    match Replay(rules, genesis, blocks)
    case None => 0
    case Some(s) => s.lib
  }

  /** The greater of a log's length and an irreversible height. */
  function LogTo(length: nat, lib: nat): nat {
    if lib > length then lib else length
  }

  /** The log is the chain up to the irreversible height. */
  ghost predicate LogExact(log: seq<Block>, chain: seq<Block>, lib: nat) {
    lib <= |chain| && log == chain[..lib]
  }

  lemma {:induction false} LogExactIf(log: seq<Block>, chain: seq<Block>, lib: nat, length: nat)
    requires log <= chain && lib <= |chain| && |log| == LogTo(length, lib)
    ensures LogExact(log, chain, lib) <==> length <= lib
  {
  }

  /** The blocks of the new branch that apply, on the chain up to the fork. */
  ghost function Tried(rules: Rules, genesis: State, index: Index, chain: seq<Block>, tip: Block): seq<Block>
    requires Keyed(index) && Fork(index, chain, tip) >= 0
  {
    var base, up := UpTo(chain, Fork(index, chain, tip)), NewBranch(index, chain, tip);
    base + up[..Good(rules, genesis, base, up)]
  }

  /** The fork is not below the log, and those blocks of the new branch that apply make nothing above the fork
      irreversible. */
  ghost predicate Reversible(rules: Rules, genesis: State, index: Index, chain: seq<Block>, log: seq<Block>, tip: Block)
    requires Keyed(index) && Fork(index, chain, tip) >= 0
  {
    var c := Fork(index, chain, tip);
    |log| <= c && LibOf(rules, genesis, Tried(rules, genesis, index, chain, tip)) <= c
  }

  /** What trying the branch of `tip` comes to. */
  ghost function SwitchVerdict(rules: Rules, genesis: State, index: Index, chain: seq<Block>, log: seq<Block>,
                               tip: Block): Outcome
    requires Keyed(index)
  {
    var c := Fork(index, chain, tip);
    if c < 0 then Unconnected
    else if c < |log| then Stranded
    else
      var up := NewBranch(index, chain, tip);
      var good := Good(rules, genesis, UpTo(chain, c), up);
      if good == |up| then Switched
      else if Reversible(rules, genesis, index, chain, log, tip) then SwitchFailed
      else Stranded
  }

  /** A branch that is tried and not switched to is undone exactly if it is reversible. */
  lemma {:induction false} UndoneIfReversible(rules: Rules, genesis: State, index: Index, chain: seq<Block>,
                                              log: seq<Block>, tip: Block)
    requires Keyed(index) && SwitchVerdict(rules, genesis, index, chain, log, tip) in {SwitchFailed, Stranded}
    ensures Fork(index, chain, tip) >= 0
    ensures Reversible(rules, genesis, index, chain, log, tip)
      <==> SwitchVerdict(rules, genesis, index, chain, log, tip) == SwitchFailed
  {
    hide Replay, Good, Fork, NewBranch;
  }

  /** A branch is unconnected exactly if it has no fork, and switched to exactly if the fork is not below the log and
      the whole branch applies. */
  lemma {:induction false} SwitchMeans(rules: Rules, genesis: State, index: Index, chain: seq<Block>, log: seq<Block>,
                                       tip: Block)
    requires Keyed(index) && Numbered(chain) && Lawful(rules) && Replay(rules, genesis, chain).Some?
    ensures Fork(index, chain, tip) < |chain|
    ensures var r, c := SwitchVerdict(rules, genesis, index, chain, log, tip), Fork(index, chain, tip);
            && (r == Unconnected <==> c < 0)
            && (r == Switched <==>
                  |log| <= c && Replay(rules, genesis, chain[..c] + NewBranch(index, chain, tip)).Some?)
  {
    hide Replay, Good, NewBranch, Reversible, Lawful, Numbered;
    var c := Fork(index, chain, tip);
    if chain != [] {
      NumberedAt(chain, |chain| - 1);
      ForkHeightIs(index, tip, chain[|chain| - 1]);
    }
    if |log| <= c {
      var up := NewBranch(index, chain, tip);
      ReplayPrefix(rules, genesis, chain, c);
      GoodFails(rules, genesis, chain[..c], up);
      var k := Good(rules, genesis, chain[..c], up);
      if k < |up| {
        NoneAfter(rules, genesis, chain[..c], up, k + 1, |up|);
      }
      assert up[..|up|] == up;
    }
  }

  /** What pushing a block comes to, told from the node before the push. */
  ghost function Verdict(rules: Rules, genesis: State, index: Index, head: Option<Block>, maxSize: nat,
                         chain: seq<Block>, state: State, log: seq<Block>, b: Block): Outcome
    requires Keyed(index)
  {
    if head.Some? && (Num(b) <= Bound(Num(head.value), maxSize) || (b.previous != ZERO_ID && b.previous !in index)) then
      Refused
    else if (head.Some? && head.value.previous == state.headId) || b.previous == state.headId then
      if Step(rules, state, b).Some? then Extended else Failed
    else if Num(b) <= |chain| then KeptAside
    else SwitchVerdict(rules, genesis, index[Id(b) := b], chain, log, b)
  }

  /** A node in order: nothing is stored above the chain, and the fork database's head is at the chain's height
      or, after a failed block, builds on it. */
  ghost predicate Runs(rules: Rules, genesis: State, index: Index, head: Option<Block>, chain: seq<Block>,
                       state: State, undo: seq<State>, log: seq<Block>) {
    && Consistent(rules, genesis, chain, state, undo, log)
    && Holds(index, chain, log) && Heights(index, |chain|)
    && (head.None? ==> chain == [])
    && (head.Some? ==> Num(head.value) == |chain| || head.value.previous == state.headId)
  }

  /** The pushes after which the node is still in order: a failed block must not be one of the chain's own, and
      a stranded node recovers only if it was at its first block with nothing logged. */
  ghost predicate Survives(verdict: Outcome, chain: seq<Block>, log: seq<Block>, b: Block)
    requires |log| <= |chain|
  {
    match verdict
    case Failed => Id(b) !in Ids(chain[Low(log)..])
    case Unconnected => false
    case Stranded => log == [] && |chain| == 1
    case _ => true
  }

  ghost predicate EndsWith<T>(s: seq<T>, t: seq<T>) {
    |t| <= |s| && s[|s| - |t|..] == t
  }

  /** The branch `up` leaves the chain after block c and ends in tip, one block higher than the chain. */
  ghost predicate ForkOf(index: Index, chain: seq<Block>, tip: Block, c: nat, up: seq<Block>) {
    && c < |chain| && c + |up| == |chain| + 1
    && Numbered(chain[..c] + up) && up[|up| - 1] == tip && Stored(index, up)
    && Id(up[0]) != Id(chain[c])
  }

  /** The fetched branch of the chain's head is the end of the chain. */
  lemma {:induction false} OldBranch(index: Index, chain: seq<Block>, log: seq<Block>, down: seq<Block>, c: nat)
    requires Holds(index, chain, log) && Numbered(chain) && |log| <= c < |chain|
    requires Branch(index, chain[|chain| - 1], down) && down[|down| - 1].previous.num == c
    ensures Reversed(down) == chain[c..] && down[|down| - 1].previous == HeadId(chain[..c])
  {
    hide Ancestor, Stored, Holds, Keyed, Numbered;
    HoldsShape(index, chain, log);
    NumberedAt(chain, |chain| - 1);
    BranchAt(index, chain[|chain| - 1], down, |down| - 1);
    forall i | 0 <= i < |down|
      ensures down[i] == chain[|chain| - 1 - i]
    {
      BranchAt(index, chain[|chain| - 1], down, i);
      MainBlock(index, chain, log, |chain| - i);
    }
    assert down[|down| - 1] == chain[c];
    FollowsHead(chain, c);
  }

  lemma {:induction false} FollowsHead(chain: seq<Block>, c: nat)
    requires Numbered(chain) && c < |chain|
    ensures chain[c].previous == HeadId(chain[..c])
  {
    assert Follows(chain, c);
  }

  lemma {:induction false} LineNumbered(base: seq<Block>, up: seq<Block>)
    requires Numbered(base) && Chained(up) && up != [] && up[0].previous == HeadId(base)
    ensures Numbered(base + up)
  {
    var all := base + up;
    forall i | 0 <= i < |all|
      ensures Follows(all, i)
    {
      if i < |base| {
        assert Follows(base, i);
      } else if i > |base| {
        assert up[i - |base|].previous == Id(up[i - |base| - 1]);
      }
    }
  }

  /** A fork height that the branches of a tip and of the chain's head have in common makes a fork. */
  lemma {:induction false} FoundFork(index: Index, chain: seq<Block>, log: seq<Block>, tip: Block, down: seq<Block>,
                                     c: nat)
    requires Holds(index, chain, log) && Numbered(chain) && Num(tip) == |chain| + 1
    requires tip.previous != HeadId(chain) && Id(tip) in index && index[Id(tip)] == tip
    requires Branch(index, tip, down) && down[|down| - 1].previous.num == c && |log| <= c < |chain|
    requires Deepest(index, tip, chain[|chain| - 1], c)
    ensures ForkOf(index, chain, tip, c, Reversed(down))
  {
    hide Ancestor, Numbered, Stored, Holds, Chained;
    var up := Reversed(down);
    HoldsShape(index, chain, log);
    BranchAt(index, tip, down, |down| - 1);
    BranchLinked(index, tip, down);
    ChainAncestorId(index, chain, log, c);
    NumberedPrefix(chain, c);
    LineNumbered(chain[..c], up);
    BranchAt(index, tip, down, |down| - 2);
    assert Prev(index, down[|down| - 2]) == Some(down[|down| - 1]);
    assert AncestorId(index, tip, c + 1) == Some(Id(up[0]));
    if c + 1 < |chain| {
      ChainAncestorId(index, chain, log, c + 1);
      assert !Common(index, tip, chain[|chain| - 1], c + 1);
      assert HeadId(chain[..c + 1]) == Id(chain[c]);
    }
  }

  /** What unwinding to the fork and pushing the new branch need. */
  lemma {:induction false} SwitchReady(index: Index, all: seq<Block>, log: seq<Block>, tip: Block, c: nat,
                                       up: seq<Block>)
    requires Holds(index, all, log) && ForkOf(index, all, tip, c, up) && |log| <= c
    ensures |up| == |all| + 1 - c && Numbered(all[..c] + up) && up[|up| - 1] == tip
    ensures Stored(index, up) && Holds(index, all[..c], log)
  {
    HoldsPrefix(index, all, log, c);
  }

  /** A fork's branches have no block in common. */
  lemma {:induction false} ForksApart(index: Index, all: seq<Block>, log: seq<Block>, tip: Block, c: nat,
                                      up: seq<Block>, j: nat)
    requires Holds(index, all, log) && ForkOf(index, all, tip, c, up) && |log| <= c && j < |up| && c + j < |all|
    requires Numbered(all)
    ensures Id(up[j]) != Id(all[c + j])
  {
    if j > 0 {
      ForksApart(index, all, log, tip, c, up, j - 1);
      HoldsAt(index, all, log, c + j);
      assert Follows(all, c + j) && Follows(all[..c] + up, c + j);
    }
  }

  lemma {:induction false} BranchNums(all: seq<Block>, up: seq<Block>, c: nat)
    requires c <= |all| && Numbered(all[..c] + up)
    ensures forall i :: 0 <= i < c ==> Num(all[i]) == i + 1
    ensures forall i :: 0 <= i < |up| ==> Num(up[i]) == c + i + 1
  {
    var line := all[..c] + up;
    forall i | 0 <= i < |line|
      ensures Num(line[i]) == i + 1
    {
      NumberedAt(line, i);
    }
    assert forall i :: 0 <= i < |up| ==> up[i] == line[c + i];
    assert forall i :: 0 <= i < c ==> all[i] == line[i];
  }

  lemma {:induction false} Distinct(all: seq<Block>, c: nat, up: seq<Block>, k: nat)
    requires c <= |all| && Numbered(all[..c] + up) && k <= |up|
    ensures forall x, y :: x in up[k..] && y in all[..c] + up[..k] ==> Id(x) != Id(y)
  {
    hide Numbered;
    BranchNums(all, up, c);
    forall x, y | x in up[k..] && y in all[..c] + up[..k]
      ensures Num(x) > c + k >= Num(y)
    {
      var i :| 0 <= i < |up| - k && x == up[k..][i];
      var j :| 0 <= j < c + k && y == (all[..c] + up[..k])[j];
      assert x == up[k + i] && (if j < c then y == all[j] else y == up[j - c]);
    }
  }

  /** The removed blocks of a fetched branch are its suffix in chain order. */
  lemma {:induction false} Suffix(down: seq<Block>, k: nat)
    requires k <= |down|
    ensures forall x :: x in down[..|down| - k] <==> x in Reversed(down)[k..]
    ensures forall x :: x in down[..|down| - k] ==> x in Reversed(down)
  {
    var up, bad := Reversed(down), down[..|down| - k];
    assert forall i :: 0 <= i < |bad| ==> bad[i] == up[|down| - 1 - i] && bad[i] == up[k..][|down| - 1 - i - k];
    assert forall i :: 0 <= i < |up[k..]| ==> up[k..][i] == bad[|down| - 1 - k - i];
  }

  /** What unwinding a failed branch needs after its bad suffix is dropped. */
  lemma {:induction false} BadSuffixGone(left: Index, all: seq<Block>, c: nat, up: seq<Block>, bad: seq<Block>,
                                         k: nat,
                                         log: seq<Block>)
    requires c <= |all| && Numbered(all[..c] + up) && k < |up|
    requires forall x :: x in bad <==> x in up[k..]
    requires Holds(left, all[..c] + up[..k], log)
    ensures Holds(left - Ids(bad), all[..c] + up[..k], log)
    ensures forall i :: k <= i < |up| ==> Id(up[i]) !in left - Ids(bad)
  {
    hide Holds, Numbered;
    Distinct(all, c, up, k);
    RestHolds(left, all[..c] + up[..k], log, bad);
    assert forall i :: k <= i < |up| ==> up[i] == up[k..][i - k];
  }

  /** Block c + i of the old branch is still there after a failed branch's blocks have been dropped, if nothing
      above it is irreversible. */
  lemma {:induction false} OldBlockStays(index: Index, left: Index, all: seq<Block>, log: seq<Block>, tip: Block,
                                         c: nat, up: seq<Block>, bad: seq<Block>, lib: nat, i: nat)
    requires Holds(index, all, log) && Numbered(all) && ForkOf(index, all, tip, c, up) && |log| <= c
    requires LeftOver(index, left, lib) && c + i < |all| && lib <= c + i + 2 && forall x :: x in bad ==> x in up
    ensures Id(all[c + i]) in left - Ids(bad) && (left - Ids(bad))[Id(all[c + i])] == all[c + i]
  {
    hide Ids, Holds, LeftOver, Keyed;
    SwitchReady(index, all, log, tip, c, up);
    BranchNums(all, up, c);
    HoldsAt(index, all, log, c + i);
    NumberedAt(all, c + i);
    ForksApart(index, all, log, tip, c, up, i);
    SurvivesRemoval(index, left, all[c + i], bad, lib);
  }

  /** After a failed switch has dropped the rest of its branch, the old branch can be put back. */
  lemma {:induction false} OldBranchStays(index: Index, left: Index, all: seq<Block>, log: seq<Block>, tip: Block,
                                          c: nat, up: seq<Block>, bad: seq<Block>, lib: nat)
    requires Holds(index, all, log) && Numbered(all) && ForkOf(index, all, tip, c, up) && |log| <= c
    requires LeftOver(index, left, lib) && lib <= c && forall x :: x in bad ==> x in up
    ensures Stored(left - Ids(bad), all[c..])
  {
    hide Ids, Holds, LeftOver, Keyed, Numbered;
    var tail := all[c..];
    forall i | 0 <= i < |tail|
      ensures Id(tail[i]) in left - Ids(bad) && (left - Ids(bad))[Id(tail[i])] == tail[i]
    {
      OldBlockStays(index, left, all, log, tip, c, up, bad, lib, i);
      assert tail[i] == all[c + i];
    }
  }

  /** The fork database's head, on the fork's branch above c, can walk down to the fork's first block. */
  lemma {:induction false} BottomOfLine(alive: Index, line: seq<Block>, k: nat)
    requires Keyed(alive) && Chained(line) && k < |line| && Stored(alive, line[..k])
    ensures Bottom(alive, line[k]) == Bottom(alive, line[0])
  {
    if k > 0 {
      var part := line[..k];
      assert Id(part[k - 1]) in alive && alive[Id(part[k - 1])] == part[k - 1];
      assert line[k].previous == Id(line[k - 1]);
      assert part[..k - 1] == line[..k - 1];
      BottomOfLine(alive, line, k - 1);
    }
  }

  /** The chain `all` has been unwound to `chain`: the fork database's head has come down the line, which
      starts above block c, as far, and the transactions of what was popped are queued. */
  ghost predicate Unwound(all: seq<Block>, chain: seq<Block>, headId: BlockId, c: nat, line: seq<Block>, head: Block,
                          queue: seq<Transaction>, popped: seq<Transaction>) {
    && c <= |chain| <= |all| && |line| == |all| + 1 - c && chain == all[..|chain|] && Numbered(all)
    && headId == HeadId(chain) && head == line[|chain| - c] && popped == Transactions(all[|chain|..]) + queue
  }

  /** Everything that can be undone has been, and the fork database's head goes on alone. */
  ghost predicate Loose(all: seq<Block>, log: seq<Block>, undo: seq<State>, c: nat, queue: seq<Transaction>,
                        popped: seq<Transaction>) {
    undo == [] && c < |log| <= |all| && EndsWith(popped, Transactions(all[|log|..]) + queue)
  }

  lemma {:induction false} UnwindStarts(all: seq<Block>, c: nat, line: seq<Block>, queue: seq<Transaction>,
                                        headId: BlockId)
    requires Numbered(all) && c <= |all| && |line| == |all| + 1 - c && headId == HeadId(all)
    ensures Unwound(all, all, headId, c, line, line[|all| - c], queue, queue)
  {
    assert all[|all|..] == [] && all[..|all|] == all;
  }

  /** Unwinding ends at the fork only if the fork is not below the log. */
  lemma {:induction false} UnwindEnds(all: seq<Block>, chain: seq<Block>, headId: BlockId, log: seq<Block>, c: nat,
                                      line: seq<Block>, head: Block, queue: seq<Transaction>,
                                      popped: seq<Transaction>)
    requires Unwound(all, chain, headId, c, line, head, queue, popped) && headId.num == c && |log| <= |chain|
    ensures chain == all[..c] && popped == Transactions(all[c..]) + queue && |log| <= c
  {
    hide Transactions, Numbered;
    NumberedPrefix(all, |chain|);
    HeadNum(chain);
  }

  /** Above the fork, the next pop finds the predecessor of the fork database's head. */
  lemma {:induction false} UnwindNeeds(alive: Index, all: seq<Block>, chain: seq<Block>, headId: BlockId, c: nat,
                                       line: seq<Block>, head: Block, queue: seq<Transaction>,
                                       popped: seq<Transaction>)
    requires Unwound(all, chain, headId, c, line, head, queue, popped) && c < |chain|
    requires Chained(line) && Stored(alive, line[..|all| - c])
    ensures head.previous in alive && alive[head.previous] == line[|chain| - 1 - c]
  {
    hide Transactions, Numbered;
    var k := |chain| - 1 - c;
    assert line[..|all| - c][k] == line[k];
    assert line[k + 1].previous == Id(line[k]);
  }

  /** A head that is not yet the fork's is above it. */
  lemma {:induction false} UnwindAbove(all: seq<Block>, chain: seq<Block>, headId: BlockId, log: seq<Block>,
                                       common: BlockId,
                                       c: nat, line: seq<Block>, head: Block, queue: seq<Transaction>,
                                       popped: seq<Transaction>)
    requires Unwound(all, chain, headId, c, line, head, queue, popped) && headId != common && |log| <= |chain|
    requires |log| <= c ==> common == HeadId(all[..c])
    ensures |log| <= c ==> c < |chain|
    ensures |log| == |chain| ==> c < |log|
  {
  }

  lemma {:induction false} UnwindStep(all: seq<Block>, was: seq<Block>, chain: seq<Block>, headId: BlockId, c: nat,
                                      line: seq<Block>, head: Block, queue: seq<Transaction>,
                                      before: seq<Transaction>, popped: seq<Transaction>)
    requires c < |was| <= |all| && |line| == |all| + 1 - c && was == all[..|was|] && Numbered(all)
    requires chain == was[..|was| - 1] && headId == HeadId(chain) && head == line[|was| - 1 - c]
    requires before == Transactions(all[|was|..]) + queue && popped == was[|was| - 1].transactions + before
    ensures Unwound(all, chain, headId, c, line, head, queue, popped)
  {
    hide Transactions, Numbered;
    TransactionsFrom(all, |was| - 1);
  }

  lemma {:induction false} EndsStill<T>(s: seq<T>, t: seq<T>, more: seq<T>)
    requires EndsWith(s, t)
    ensures EndsWith(more + s, t)
  {
  }

  lemma {:induction false} Whole(base: seq<Block>, up: seq<Block>, k: nat)
    requires k <= |up|
    ensures k == |up| ==> base + up[..k] == base + up
    ensures |base + up[..k]| == |base| + k
  {
    if k == |up| {
      assert up[..k] == up;
    }
  }

  lemma {:induction false} Prefixes(all: seq<Block>, up: seq<Block>, c: nat, k: nat)
    requires c <= |all| && k <= |up|
    ensures (all[..c] + up[..k])[..c] == all[..c] && (all[..c] + up[..k])[c..] == up[..k]
    ensures all[..c] + all[c..] == all
  {
  }

  lemma {:induction false} LooseStep(all: seq<Block>, log: seq<Block>, undo: seq<State>, c: nat,
                                     queue: seq<Transaction>,
                                     before: seq<Transaction>, more: seq<Transaction>, popped: seq<Transaction>,
                                     first: bool)
    requires undo == [] && c < |log| <= |all| && popped == more + before
    requires if first then before == Transactions(all[|log|..]) + queue else Loose(all, log, undo, c, queue, before)
    ensures Loose(all, log, undo, c, queue, popped)
  {
    hide Transactions;
    EndsStill(before, Transactions(all[|log|..]) + queue, more);
  }

  lemma {:induction false} UnwoundShape(all: seq<Block>, chain: seq<Block>, headId: BlockId, c: nat, line: seq<Block>,
                                        head: Block, queue: seq<Transaction>, popped: seq<Transaction>)
    requires Unwound(all, chain, headId, c, line, head, queue, popped)
    ensures c <= |chain| <= |all| && |line| == |all| + 1 - c && chain == all[..|chain|] && Numbered(all)
    ensures popped == Transactions(all[|chain|..]) + queue && head == line[|chain| - c]
  {
  }

  lemma {:induction false} LooseShape(all: seq<Block>, log: seq<Block>, undo: seq<State>, c: nat,
                                      queue: seq<Transaction>,
                                      popped: seq<Transaction>)
    requires Loose(all, log, undo, c, queue, popped)
    ensures undo == [] && c < |log| <= |all| && EndsWith(popped, Transactions(all[|log|..]) + queue)
  {
  }

  /** The branches of a tip and of the chain's head down to the fork, c; unless the fork is below the log, the
      second is the end of the chain. */
  ghost predicate Fetched(index: Index, chain: seq<Block>, log: seq<Block>, tip: Block, first: seq<Block>,
                          second: seq<Block>, c: int)
    requires Keyed(index)
  {
    && 0 <= c < |chain| && c == Fork(index, chain, tip) && Reversed(first) == NewBranch(index, chain, tip)
    && |first| == |chain| + 1 - c && Chained(Reversed(first)) && first[0] == tip
    && Stored(Held(first), Reversed(first)) && Stored(index, Reversed(first))
    && |second| >= 1 && second[|second| - 1].previous.num == c
    && (|log| <= c ==> ForkOf(index, chain, tip, c, Reversed(first)) && Reversed(second) == chain[c..]
                       && second[|second| - 1].previous == HeadId(chain[..c]))
  }

  lemma {:induction false} HeldBranch(index: Index, tip: Block, down: seq<Block>)
    requires Keyed(index) && Branch(index, tip, down)
    ensures Stored(Held(down), Reversed(down))
  {
    hide Ancestor, Held;
    forall i | 0 <= i < |down|
      ensures Num(down[i]) == Num(tip) - i
    {
      BranchAt(index, tip, down, i);
    }
    HeldStores(down);
  }

  lemma {:induction false} FetchedFork(index: Index, chain: seq<Block>, log: seq<Block>, tip: Block,
                                       first: seq<Block>,
                                       second: seq<Block>)
    requires chain != [] && Holds(index, chain, log) && Numbered(chain) && Num(tip) == |chain| + 1
    requires tip.previous != HeadId(chain) && Id(tip) in index && index[Id(tip)] == tip
    requires Branch(index, tip, first) && Branch(index, chain[|chain| - 1], second)
    requires first[|first| - 1].previous == second[|second| - 1].previous
    requires Deepest(index, tip, chain[|chain| - 1], first[|first| - 1].previous.num)
    ensures Fetched(index, chain, log, tip, first, second, first[|first| - 1].previous.num)
    ensures first[|first| - 1].previous.num == Fork(index, chain, tip)
  {
    hide Ancestor, Numbered, Holds, Stored, Chained, Held, ForkOf, Deepest, Common;
    var c, last := first[|first| - 1].previous.num, chain[|chain| - 1];
    HoldsShape(index, chain, log);
    NumberedAt(chain, |chain| - 1);
    DeepestIsForkHeight(index, tip, last, c);
    ForkHeightIs(index, tip, last);
    BranchUp(index, tip, first, c);
    BranchLinked(index, tip, first);
    HeldBranch(index, tip, first);
    if |log| <= c {
      FoundFork(index, chain, log, tip, first, c);
      OldBranch(index, chain, log, second, c);
    }
  }

  /** The part of a line up to the failed block, as unwinding needs it. */
  lemma {:induction false} LinePart(index: Index, first: seq<Block>, up: seq<Block>, k: nat)
    requires Stored(Held(first), up) && Chained(up) && k < |up|
    ensures Chained(up[..k + 1]) && Stored(index + Held(first), up[..k + 1][..k])
  {
  }

  /** Block `pushed` of the new branch has failed on top of those below it. */
  ghost predicate Failing(index: Index, left: Index, all: seq<Block>, log0: seq<Block>, tip: Block, c: nat,
                          first: seq<Block>, second: seq<Block>, pushed: nat, chain: seq<Block>, lib: nat) {
    && Holds(index, all, log0) && Numbered(all) && LeftOver(index, left, lib) && |log0| <= c
    && Fetched(index, all, log0, tip, first, second, c) && pushed < |first|
    && chain == all[..c] + Reversed(first)[..pushed]
  }

  /** The chain is back and is the fork database's main branch, and the failed blocks are forgotten. */
  ghost predicate Restored(index: Index, left: Index, all: seq<Block>, c: nat, first: seq<Block>, pushed: nat,
                           chain: seq<Block>, head: Option<Block>, queue: seq<Transaction>,
                           popped: seq<Transaction>) {
    && pushed <= |first| && chain == all != [] && head == Some(all[|all| - 1])
    && popped == Transactions(Reversed(first)[..pushed]) + queue && index.Keys <= left.Keys
    && forall i :: pushed <= i < |first| ==> Id(Reversed(first)[i]) !in index
  }

  /** The failed blocks are forgotten, and the fork database's head has gone down as far as it could. */
  ghost predicate GoneDown(left: Index, rest: Index, first: seq<Block>, pushed: nat, head: Option<Block>) {
    && pushed < |first| && rest == left - Ids(first[..|first| - pushed]) && Keyed(rest)
    && head == Some(Bottom(rest + Held(first), Reversed(first)[pushed]))
  }

  lemma {:induction false} PutBackReady(index: Index, left: Index, all: seq<Block>, log0: seq<Block>, log: seq<Block>,
                                        tip: Block, c: nat, first: seq<Block>, second: seq<Block>, pushed: nat,
                                        chain: seq<Block>, lib: nat)
    requires Failing(index, left, all, log0, tip, c, first, second, pushed, chain, lib)
    requires Holds(left, chain, log) && lib <= |log|
    ensures c < |all| && pushed < |first| && chain == all[..c] + Reversed(first)[..pushed] && |second| >= 1
    ensures second[|second| - 1].previous.num == c
    ensures second[|second| - 1].previous == HeadId(all[..c]) && chain[..c] == all[..c] && chain[c..] == Reversed(first)[..pushed]
    ensures second[0] == all[|all| - 1] && Reversed(second) == all[c..] && all[..c] + all[c..] == all && Numbered(all)
    ensures Chained(Reversed(first)[..pushed + 1])
    ensures var rest := left - Ids(first[..|first| - pushed]);
            && Holds(rest, chain, log) && Stored(rest + Held(first), Reversed(first)[..pushed + 1][..pushed])
            && (forall i :: pushed <= i < |first| ==> Id(Reversed(first)[i]) !in rest)
            && (|log| <= c ==> Stored(rest, all[c..]))
  {
    hide Holds, Stored, Numbered, Ancestor, ForkOf, LeftOver, Held, NewBranch, Fork, Chained, Ids, HeadId;
    var up, bad := Reversed(first), first[..|first| - pushed];
    Suffix(first, pushed);
    SwitchReady(index, all, log0, tip, c, up);
    BadSuffixGone(left, all, c, up, bad, pushed, log);
    Prefixes(all, up, c, pushed);
    LinePart(left - Ids(bad), first, up, pushed);
    assert Reversed(second)[|second| - 1] == all[c..][|all| - c - 1];
    if |log| <= c {
      OldBranchStays(index, left, all, log0, tip, c, up, bad, lib);
    }
  }

  lemma {:induction false} FetchedShape(index: Index, chain: seq<Block>, log: seq<Block>, tip: Block,
                                        first: seq<Block>,
                                        second: seq<Block>, c: int)
    requires Keyed(index) && Fetched(index, chain, log, tip, first, second, c)
    ensures 0 <= c < |chain| && |first| == |chain| + 1 - c && Chained(Reversed(first)) && first[0] == tip
    ensures c == Fork(index, chain, tip) && Reversed(first) == NewBranch(index, chain, tip)
    ensures Stored(index + Held(first), Reversed(first)[..|chain| - c])
    ensures Reversed(first)[|chain| - c] == tip && |second| >= 1 && second[|second| - 1].previous.num == c
    ensures |log| <= c ==> ForkOf(index, chain, tip, c, Reversed(first)) && Reversed(second) == chain[c..]
    ensures |log| <= c ==> Stored(index, Reversed(first)) && Numbered(chain[..c] + Reversed(first))
    ensures |log| <= c ==> second[|second| - 1].previous == HeadId(chain[..c])
  {
    hide Held, Numbered, Fork, NewBranch, Keyed, Chained;
  }

  /** Unwound to the fork with the branches fetched. */
  ghost predicate AtFork(index: Index, all: seq<Block>, log: seq<Block>, tip: Block, first: seq<Block>,
                         second: seq<Block>, c: nat, chain: seq<Block>, queue: seq<Transaction>,
                         popped: seq<Transaction>) {
    && Holds(index, all, log) && Numbered(all) && |log| <= c && Fetched(index, all, log, tip, first, second, c)
    && Heights(index - {Id(tip)}, |all|) && Num(tip) == |all| + 1
    && chain == all[..c] && popped == Transactions(all[c..]) + queue
  }

  lemma {:induction false} AtForkShape(index: Index, all: seq<Block>, log: seq<Block>, tip: Block, first: seq<Block>,
                                       second: seq<Block>, c: nat, chain: seq<Block>, queue: seq<Transaction>,
                                       popped: seq<Transaction>)
    requires AtFork(index, all, log, tip, first, second, c, chain, queue, popped)
    ensures c < |all| && chain == all[..c] && popped == Transactions(all[c..]) + queue && |log| <= c && Keyed(index)
    ensures Fetched(index, all, log, tip, first, second, c) && Reversed(first) == NewBranch(index, all, tip)
    ensures |first| == |all| + 1 - c && Holds(index, chain, log) && Stored(index, Reversed(first))
    ensures Numbered(chain + Reversed(first)) && Heights(index - {Id(tip)}, |all|)
    ensures Holds(index, all, log) && Numbered(all)
  {
    hide Held, Fork, NewBranch, Keyed, Chained, Stored, Transactions, Heights, ForkOf;
    HoldsShape(index, all, log);
    FetchedShape(index, all, log, tip, first, second, c);
    HoldsPrefix(index, all, log, c);
  }
}
