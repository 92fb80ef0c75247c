/** The chain state, its undo stack and the block log, as blocks are pushed, popped and made irreversible. */
module ChainDatabase {
  import opened Wrappers
  import opened Blocks
  import opened ForkDatabase
  import opened ChainReplay
  import opened ChainIndex
  import opened ForkSwitch
  import opened SwitchOutcome
  import opened Finality

  class Chain {
    const rules: Rules
    const genesis: State
    const forks: Forks
    ghost var chain: seq<Block>        // the applied blocks, from block 1
    var state: State
    var undo: seq<State>               // states to go back to, the latest last
    var log: seq<Block>
    var popped: seq<Transaction>

    ghost predicate Sound()
      reads this
    {
      Consistent(rules, genesis, chain, state, undo, log)
    }

    ghost predicate Running()
      reads this, forks
    {
      Runs(rules, genesis, forks.index, forks.head, chain, state, undo, log)
    }

    /** The fork database's head is a block that has failed on top of the chain's head. */
    predicate Ahead()
      reads this, forks
    {
      forks.head.Some? && forks.head.value.previous == state.headId
    }

    /** The fork database and the chain have the same head. */
    ghost predicate Synced()
      reads this, forks
    {
      chain != [] && forks.head == Some(chain[|chain| - 1])
    }

    /** Opens a stored state whose head, if it has one, is the head of the block log. */
    constructor (rules: Rules, genesis: State, blocks: seq<Block>, state: State)
      requires Lawful(rules) && Genesis(genesis) && Replay(rules, genesis, blocks) == Some(state)
      ensures Running() && (blocks != [] ==> Synced())
      ensures fresh(forks) && this.rules == rules && this.genesis == genesis
      ensures chain == blocks && log == blocks && popped == []
    {
      hide Replay, Consistent, Holds, Lawful;
      Opened(rules, genesis, blocks, state);
      var f := new Forks();
      if blocks != [] {
        f.StartBlock(blocks[|blocks| - 1]);
      }
      this.rules, this.genesis, this.state, forks := rules, genesis, state, f;
      chain, log, undo, popped := blocks, blocks, [], [];
    }

    /** Takes the last block back and queues its transactions again. With nothing left to undo, the fork
        database's head goes down and the transactions are queued, but the chain stays. */
    method PopBlock(held: Index) returns (ok: bool)
      requires Sound() && Holds(forks.index, chain, log)
      modifies `chain, `state, `undo, `popped, forks`head
      ensures Sound() && Holds(forks.index, chain, log)
      ensures ok <==> old(chain) != [] && old(forks.head).Some? && old(forks.head).value.previous in forks.index + held
      ensures !ok ==> chain == old(chain) && popped == old(popped) && forks.head == old(forks.head)
      ensures ok ==> chain == if |old(chain)| == |log| then old(chain) else old(chain)[..|old(chain)| - 1]
      ensures ok ==> popped == old(chain)[|old(chain)| - 1].transactions + old(popped)
      ensures ok ==> forks.head == Some((forks.index + held)[old(forks.head).value.previous])
    {
      hide Replay, Stored;
      ReplayNumbers(rules, genesis, chain);
      NoZero(forks.index);
      if state.headId !in forks.index {
        HeadStored(forks.index, chain, log);
        return false;
      }
      HeadStored(forks.index, chain, log);
      var headBlock := forks.index[state.headId];
      ok := forks.PopBlock(held);
      if !ok {
        return;
      }
      if undo != [] {
        UndoKeeps(rules, genesis, chain, state, undo, log);
        HoldsPrefix(forks.index, chain, log, |chain| - 1);
        chain := chain[..|chain| - 1];
        state, undo := undo[|undo| - 1], undo[..|undo| - 1];
      }
      popped := headBlock.transactions + popped;
    }

    /** A block of the chain, looked up by its number. */
    method MainBranchBlock(n: nat) returns (b: Block)
      requires chain != [] && Holds(forks.index, chain, log) && Numbered(chain) && forks.head.Some?
      requires HeadFits(forks.head.value, forks.index, chain) && Low(log) < n <= |chain|
      ensures b == chain[n - 1]
    {
      hide Ancestor, Numbered, LoneStray, HeadFits, Holds;
      Lookup(forks.index, chain, log, forks.head.value, n);
      var block := forks.FetchBlockOnMainBranchByNumber(n);
      return block.value;
    }

    /** The main branch's blocks from the log's head to the last irreversible one. */
    method BlocksToWrite() returns (blocks: seq<Block>)
      requires chain != [] && Holds(forks.index, chain, log) && Numbered(chain) && forks.head.Some?
      requires HeadFits(forks.head.value, forks.index, chain)
      requires log <= chain && state.lib <= |chain|
      ensures log + blocks == Logged(log, chain, state.lib)
    {
      hide Ancestor, Numbered, Stored, Keyed, HeadFits, Holds;
      blocks := [];
      var logHead := |log|;
      while logHead < state.lib
        invariant |log| <= logHead <= (if state.lib > |log| then state.lib else |log|)
        invariant log + blocks == chain[..logHead]
      {
        var block := MainBranchBlock(logHead + 1);
        blocks := blocks + [block];
        logHead := logHead + 1;
      }
    }

    /** Appends newly irreversible blocks to the log and forgets how to undo them. */
    method MigrateIrreversibleState()
      requires chain != [] && Holds(forks.index, chain, log) && Numbered(chain) && forks.head.Some?
      requires HeadFits(forks.head.value, forks.index, chain)
      requires log <= chain && state.lib <= |chain| && |undo| == |chain| - |log|
      modifies `undo, `log, forks`index, forks`maxSize
      ensures log == Logged(old(log), chain, state.lib)
      ensures undo == old(undo)[|log| - |old(log)|..]
      ensures forks.index == Trimmed(old(forks.index), |chain|, state.lib)
      ensures forks.maxSize == |chain| - state.lib + 1
    {
      var blocks := BlocksToWrite();
      NumberedAt(chain, |chain| - 1);
      assert Num(forks.head.value) == |chain|;
      log := log + blocks;
      forks.SetMaxSize(Num(forks.head.value) - state.lib + 1);
      undo := undo[|blocks|..];
    }

    /** Applies a block on top of the head, or leaves everything as it is. */
    method ApplyBlock(b: Block) returns (ok: bool)
      requires Sound() && Holds(forks.index, chain, log) && forks.head.Some?
      requires Id(b) in forks.index && forks.index[Id(b)] == b
      requires b.previous == HeadId(chain) ==> HeadFits(forks.head.value, forks.index, chain + [b])
      modifies `chain, `state, `undo, `log, forks`index, forks`maxSize
      ensures ok <==> Step(rules, old(state), b).Some?
      ensures ok ==> Step(rules, old(state), b) == Some(state)
      ensures !ok ==> chain == old(chain) && state == old(state) && undo == old(undo) && log == old(log)
      ensures !ok ==> forks.index == old(forks.index) && forks.maxSize == old(forks.maxSize)
      ensures Sound() && Holds(forks.index, chain, log) && old(log) <= log
      ensures ok ==> chain == old(chain) + [b] && b.previous == HeadId(old(chain))
      ensures ok ==> old(state).lib <= state.lib <= |chain|
      ensures ok ==> |log| == LogTo(|old(log)|, state.lib)
      ensures ok ==> log == Logged(old(log), chain, state.lib) && forks.maxSize == |chain| - state.lib + 1
      ensures ok ==> forks.index == Trimmed(old(forks.index), |chain|, state.lib)
    {
      hide Replay, Consistent, Holds, Stored, Keyed, Numbered, HeadFits, Trimmed, Step, HeadId, Lawful;
      match Step(rules, state, b)
      case None => return false;
      case Some(next) =>
        ApplyShape(rules, genesis, chain, state, undo, log, b, next);
        ApplyKeeps(rules, genesis, chain, state, undo, log, b, next);
        ghost var longer := chain + [b];
        HoldsLonger(forks.index, chain, log, b);
        undo := undo + [state];
        state := next;
        chain := longer;
        MigrateIrreversibleState();
        HoldsTrimmed(old(forks.index), longer, old(log), next.lib);
        return true;
    }

    /** Pops blocks until `common`, block c, is the head. The fork database's head meanwhile walks down
        `line`, the part above c of the branch it stands on. If block c is already below the log, all that can
        be undone is, and the head walks on to the end of its stored predecessors. */
    method PopTo(common: BlockId, held: Index, ghost c: nat, ghost line: seq<Block>) returns (ok: bool)
      requires Sound() && Holds(forks.index, chain, log) && Keyed(held)
      requires c <= |chain| && common.num == c && (|log| <= c ==> common == HeadId(chain[..c]))
      requires Chained(line) && |line| == |chain| + 1 - c && forks.head == Some(line[|chain| - c])
      requires Stored(forks.index + held, line[..|chain| - c])
      modifies `chain, `state, `undo, `popped, forks`head
      ensures Sound() && Holds(forks.index, chain, log)
      ensures ok <==> |log| <= c
      ensures ok ==> chain == old(chain)[..c] && popped == Transactions(old(chain)[c..]) + old(popped)
      ensures !ok ==> chain == log && undo == [] && forks.head == Some(Bottom(forks.index + held, line[|line| - 1]))
      ensures !ok ==> EndsWith(popped, Transactions(old(chain)[|log|..]) + old(popped))
    {
      hide Replay, Consistent, Transactions, Holds, Stored, Numbered, HeadId, Lawful, Unwound, Loose, Chained,
        EndsWith;
      ghost var all, queue, alive := chain, popped, forks.index + held;
      ghost var loose := false;
      SoundShape();
      HoldsShape(forks.index, chain, log);
      UnwindStarts(all, c, line, queue, state.headId);
      while state.headId != common
        invariant Sound() && Holds(forks.index, chain, log) && forks.head.Some?
        invariant Bottom(alive, forks.head.value) == Bottom(alive, line[|line| - 1])
        invariant !loose ==> Unwound(all, chain, state.headId, c, line, forks.head.value, queue, popped)
        invariant loose ==> Loose(all, log, undo, c, queue, popped)
        decreases Num(forks.head.value)
      {
        SoundShape();
        ghost var was, queued, done := chain, popped, undo == [];
        if !loose {
          UnwoundShape(all, chain, state.headId, c, line, forks.head.value, queue, popped);
          UnwindAbove(all, chain, state.headId, log, common, c, line, forks.head.value, queue, popped);
          if c < |chain| {
            UnwindNeeds(alive, all, chain, state.headId, c, line, forks.head.value, queue, popped);
          }
        } else {
          LooseShape(all, log, undo, c, queue, popped);
        }
        ok := PopBlock(held);
        SoundShape();
        if !ok {
          return;
        }
        if done {
          LooseStep(all, log, undo, c, queue, queued, was[|was| - 1].transactions, popped, !loose);
          loose := true;
        } else {
          UnwindStep(all, was, chain, state.headId, c, line, forks.head.value, queue, queued, popped);
        }
      }
      SoundShape();
      if loose {
        LooseShape(all, log, undo, c, queue, popped);
        HeadNum(chain);
      }
      UnwindEnds(all, chain, state.headId, log, c, line, forks.head.value, queue, popped);
      return true;
    }

    /** Applies a fetched branch from its end to its tip, until a block fails. */
    method PushBranch(down: seq<Block>) returns (pushed: nat)
      requires Sound() && Holds(forks.index, chain, log) && Stored(forks.index, Reversed(down))
      requires Numbered(chain + Reversed(down)) && down != []
      modifies `chain, `state, `undo, `log, forks`head, forks`index, forks`maxSize
      ensures Sound() && Holds(forks.index, chain, log)
      ensures pushed <= |down| && chain == old(chain) + Reversed(down)[..pushed]
      ensures pushed == Good(rules, genesis, old(chain), Reversed(down))
      ensures forks.head == Some(if pushed < |down| then Reversed(down)[pushed] else down[0])
      ensures old(log) <= log && |log| == LogTo(|old(log)|, state.lib)
      ensures LeftOver(old(forks.index), forks.index, state.lib) && forks.index.Keys <= old(forks.index).Keys
    {
      hide Replay, Consistent, Holds, Stored, Numbered, LeftOver, Trimmed, Lawful, Step;
      ghost var up := Reversed(down);
      ghost var base := chain;
      var i := |down|;
      assert base + up[..0] == base;
      SoundShape();
      LeftOverSelf(forks.index, state.lib);
      while i > 0
        invariant 0 <= i <= |down| && Sound() && Holds(forks.index, chain, log)
        invariant chain == base + up[..|down| - i] && state.lib <= |log| <= |chain|
        invariant i < |down| ==> forks.head == Some(down[i])
        invariant old(log) <= log && |log| == LogTo(|old(log)|, state.lib)
        invariant LeftOver(old(forks.index), forks.index, state.lib)
        invariant Replay(rules, genesis, chain) == Some(state)
      {
        var k := |down| - i;
        assert up[k] == down[i - 1];
        PushNext(rules, genesis, old(forks.index), forks.index, base, up, k, state);
        forks.SetHead(down[i - 1]);
        ghost var was, index := state.lib, forks.index;
        var ok := ApplyBlock(down[i - 1]);
        if !ok {
          LeftOverKeys(old(forks.index), forks.index, state.lib);
          GoodIs(rules, genesis, base, up, k);
          return k;
        }
        LeftOverTrimmed(old(forks.index), index, was, |chain|, state.lib);
        SoundShape();
        i := i - 1;
      }
      pushed := |down|;
      assert up[..pushed] == up;
      GoodIs(rules, genesis, base, up, pushed);
      LeftOverKeys(old(forks.index), forks.index, state.lib);
    }

    /** Drops the blocks of a branch from position `from` of the fetched order upwards in height. */
    method RemoveFrom(down: seq<Block>, bad: nat)
      requires bad <= |down|
      modifies forks`index
      ensures forks.index == old(forks.index) - Ids(down[..bad])
    {
      var i := bad;
      while i > 0
        invariant 0 <= i <= bad
        invariant forks.index == old(forks.index) - Ids(down[i..bad])
      {
        i := i - 1;
        assert down[i..bad] == [down[i]] + down[i + 1..bad];
        forks.Remove(Id(down[i]));
      }
      assert down[0..bad] == down[..bad];
    }

    /** The new branch and the chain's own, each from its tip down to where they part. */
    method FetchFork(tip: Block) returns (r: Option<Branches>)
      requires Sound() && Holds(forks.index, chain, log)
      requires Id(tip) in forks.index && forks.index[Id(tip)] == tip
      requires tip.previous != HeadId(chain) && (chain != [] ==> Num(tip) == |chain| + 1)
      ensures r.Some? <==> Fork(forks.index, chain, tip) >= 0
      ensures r.Some? ==> Fetched(forks.index, chain, log, tip, r.value.first, r.value.second, Fork(forks.index, chain, tip))
    {
      hide Replay, Consistent, Stored, Numbered, Ancestor, Common, Fetched;
      SoundShape();
      HoldsShape(forks.index, chain, log);
      NoZero(forks.index);
      HeadStored(forks.index, chain, log);
      r := forks.FetchBranchFrom(Id(tip), state.headId);
      if chain != [] {
        ForkHeightIs(forks.index, tip, chain[|chain| - 1]);
        if r.Some? {
          FetchedFork(forks.index, chain, log, tip, r.value.first, r.value.second);
        }
      }
    }

    /** After block `pushed` of the new branch has failed: forgets it and the blocks above, unwinds the rest
        of the branch, and applies the old one again. What has become irreversible cannot be unwound. */
    method PutBack(first: seq<Block>, second: seq<Block>, pushed: nat, ghost index: Index, ghost all: seq<Block>,
                   ghost log0: seq<Block>, ghost tip: Block, ghost c: nat) returns (ok: bool)
      requires Sound() && Holds(forks.index, chain, log) && Replay(rules, genesis, all).Some?
      requires LibOf(rules, genesis, all) <= |log0| <= |log|
      requires Failing(index, forks.index, all, log0, tip, c, first, second, pushed, chain, state.lib)
      requires pushed < |first| && forks.head == Some(Reversed(first)[pushed])
      modifies `chain, `state, `undo, `log, `popped, forks`head, forks`index, forks`maxSize
      ensures Sound() && Holds(forks.index, chain, log) && log == old(log)
      ensures ok <==> |old(log)| <= c
      ensures ok ==> Restored(forks.index, old(forks.index), all, c, first, pushed, chain, forks.head, old(popped), popped)
      ensures ok ==> LeftOver(old(forks.index) - Ids(first[..|first| - pushed]), forks.index, state.lib)
      ensures !ok ==> chain == log == old(log) && undo == []
      ensures !ok ==> GoneDown(old(forks.index), forks.index, first, pushed, forks.head)
      ensures !ok ==> EndsWith(popped, Transactions(old(chain)[|log|..]) + old(popped))
    {
      hide Replay, Consistent, Transactions, Holds, Stored, Numbered, Ancestor, LeftOver, Lawful, Bottom, EndsWith,
        Held, Chained, Failing, Fetched, HeadId, Keyed, Ids, Step, Good;
      ghost var up := Reversed(first);
      ghost var left, lib := forks.index, state.lib;
      SoundShape();
      HoldsShape(left, chain, log);
      PutBackReady(index, left, all, log0, log, tip, c, first, second, pushed, chain, lib);
      RemoveFrom(first, |first| - pushed);
      ok := PopTo(second[|second| - 1].previous, Held(first), c, up[..pushed + 1]);
      if !ok {
        HoldsShape(forks.index, chain, log);
        return;
      }
      var restored := PushBranch(second);
      StillApplies(rules, genesis, all, c);
      Whole(all[..c], all[c..], restored);
      SoundShape();
    }

    /** At the fork: pushes the new branch and, if a block of it fails, tries to put the old one back. */
    method TryBranch(first: seq<Block>, second: seq<Block>, ghost all: seq<Block>, ghost tip: Block, ghost c: nat,
                     ghost queue: seq<Transaction>) returns (r: Outcome)
      requires Sound() && AtFork(forks.index, all, log, tip, first, second, c, chain, queue, popped)
      requires Replay(rules, genesis, all).Some? && LibOf(rules, genesis, all) <= |log|
      modifies `chain, `state, `undo, `log, `popped, forks`head, forks`index, forks`maxSize
      ensures Sound() && Holds(forks.index, chain, log) && old(log) <= log
      ensures r == SwitchVerdict(rules, genesis, old(forks.index), all, old(log), tip)
      ensures r == SwitchFailed ==>
        |log| == LogTo(|old(log)|, LibOf(rules, genesis, all[..c] + Reversed(first)[..Good(rules, genesis, all[..c], Reversed(first))]))
      ensures r == Switched ==> |log| == LogTo(|old(log)|, state.lib)
      ensures r == Switched || r == SwitchFailed ==> Running() && Synced()
      ensures r == SwitchFailed ==> chain == all
      ensures r == Switched ==> SwitchDone(old(forks.index), all, queue, tip, chain, popped, c, Reversed(first))
      ensures r == Switched ==> LeftOver(old(forks.index), forks.index, state.lib)
      ensures r == SwitchFailed ==>
        Spared(old(forks.index), forks.index, Reversed(first)[Good(rules, genesis, all[..c], Reversed(first))..], c)
      ensures r == SwitchFailed ==>
        SwitchUndone(rules, genesis, old(forks.index), all, queue, tip, chain, popped, forks.index, c,
                     Reversed(first))
      ensures r == Switched || r == SwitchFailed || r == Stranded
      ensures r == Stranded ==> forks.head.Some? && (InOrder(chain, forks.index, forks.head.value) <==> old(log) == [] && |all| == 1)
      ensures r == Stranded ==> SwitchStranded(rules, genesis, all, old(log), queue, chain, undo, log, popped, forks.index,
                                               forks.head, c, Reversed(first))
    {
      hide Replay, Consistent, Transactions, Holds, Stored, Numbered, Branch, Ancestor, ForkOf, LeftOver, Fetched,
        AtFork,
        Restored, SwitchDone, SwitchUndone, SwitchStranded, InOrder, Held, Fork, NewBranch, Bottom, Good, EndsWith, Lawful,
        Chained, Heights, Keyed, HeadId, FirstFailure, SwitchVerdict, Spared, Ids;
      ghost var index, log0, up := forks.index, log, Reversed(first);
      AtForkShape(index, all, log, tip, first, second, c, chain, queue, popped);
      var pushed := PushBranch(first);
      SoundShape();
      if pushed == |first| {
        WentThrough(rules, genesis, index, all, log0, tip, first, second, c, queue, popped, all[..c], chain,
                    forks.index);
        return Switched;
      }
      ghost var left, tried, last := forks.index, chain, state;
      var ok := PutBack(first, second, pushed, index, all, log0, tip, c);
      SoundShape();
      if ok {
        WasUndone(rules, genesis, index, left, all, log0, tip, first, second, c, queue, all[..c],
                  Transactions(all[c..]) + queue, last, pushed, chain, forks.head, popped, forks.index);
        Suffix(first, pushed);
        SparedIs(index, left, forks.index, first[..|first| - pushed], up[pushed..], last.lib, state.lib, c);
        return SwitchFailed;
      }
      HoldsShape(left, tried, log);
      assert log == tried[..last.lib];
      AboveFork(rules, genesis, index, left, all, log0, tip, c, first, second, pushed, tried, last, queue, popped,
                forks.index, forks.head);
      StrandedVerdict(rules, genesis, index, all, log0, tip, first, second, c, tried, last, pushed);
      return Stranded;
    }

    /** Leaves the chain for a higher branch. If a block of the new branch fails, the chain is put back and
        the rest of the new branch is forgotten, unless what it would have to undo is irreversible. */
    method SwitchTo(tip: Block) returns (r: Outcome)
      requires Sound() && Holds(forks.index, chain, log) && forks.head == Some(tip)
      requires Id(tip) in forks.index && forks.index[Id(tip)] == tip && Heights(forks.index - {Id(tip)}, |chain|)
      requires tip.previous != HeadId(chain) && Num(tip) > |chain| && (chain != [] ==> Num(tip) == |chain| + 1)
      modifies `chain, `state, `undo, `log, `popped, forks`head, forks`index, forks`maxSize
      ensures Sound() && Holds(forks.index, chain, log) && old(log) <= log
      ensures r == SwitchVerdict(rules, genesis, old(forks.index), old(chain), old(log), tip)
      ensures r == Unconnected || r == Switched || r == SwitchFailed || r == Stranded
      ensures Running() <==> Survives(r, old(chain), old(log), tip)
      ensures r == Unconnected ==> chain == old(chain) && state == old(state) && log == old(log) && popped == old(popped)
      ensures r == Unconnected ==> forks.head == Some(tip) && forks.index == old(forks.index)
      ensures r == Unconnected ==> forks.maxSize == old(forks.maxSize)
      ensures r == Unconnected <==> Fork(old(forks.index), old(chain), tip) < 0
      ensures r == Switched <==> (
        && |old(log)| <= Fork(old(forks.index), old(chain), tip) < |old(chain)|
        && Replay(rules, genesis, old(chain)[..Fork(old(forks.index), old(chain), tip)]
                                  + NewBranch(old(forks.index), old(chain), tip)).Some?)
      ensures r == Switched ==> |log| == LogTo(|old(log)|, state.lib)
      ensures r == Switched ==> (LogExact(log, chain, state.lib) <==> |old(log)| <= state.lib)
      ensures r == Switched ==> SwitchDone(old(forks.index), old(chain), old(popped), tip, chain, popped,
        Fork(old(forks.index), old(chain), tip), NewBranch(old(forks.index), old(chain), tip))
      ensures r == Switched ==> LibKnown(rules, genesis, old(chain), Fork(old(forks.index), old(chain), tip),
        NewBranch(old(forks.index), old(chain), tip), old(state).lib, state.lib)
      ensures r == Switched || r == SwitchFailed ==> Synced()
      ensures r == Switched ==> LeftOver(old(forks.index), forks.index, state.lib)
      ensures r == SwitchFailed ==>
        var c, up := Fork(old(forks.index), old(chain), tip), NewBranch(old(forks.index), old(chain), tip);
        c >= 0 && Spared(old(forks.index), forks.index, up[Good(rules, genesis, UpTo(old(chain), c), up)..], c)
      ensures r == SwitchFailed ==> chain == old(chain) && state == old(state)
      ensures r == SwitchFailed ==> (
        && Fork(old(forks.index), old(chain), tip) >= 0
        && |log| == LogTo(|old(log)|, LibOf(rules, genesis, Tried(rules, genesis, old(forks.index), old(chain), tip))))
      ensures r == SwitchFailed ==> SwitchUndone(rules, genesis, old(forks.index), old(chain), old(popped), tip, chain, popped,
        forks.index, Fork(old(forks.index), old(chain), tip), NewBranch(old(forks.index), old(chain), tip))
      ensures r == SwitchFailed || r == Stranded ==> (
        && Fork(old(forks.index), old(chain), tip) >= 0
        && (Reversible(rules, genesis, old(forks.index), old(chain), old(log), tip) <==> chain == old(chain) && Synced()))
      ensures r == Stranded ==> SwitchStranded(rules, genesis, old(chain), old(log), old(popped), chain,
        undo, log, popped, forks.index, forks.head, Fork(old(forks.index), old(chain), tip),
        NewBranch(old(forks.index), old(chain), tip))
    {
      hide Replay, Consistent, Transactions, Holds, Stored, Numbered, Branch, Ancestor, ForkOf, Fetched, LibOf,
        SwitchDone, SwitchUndone, SwitchStranded, Held, Fork, NewBranch, Bottom, Good, EndsWith, Lawful,
        Chained, Heights, Keyed, Step, HeadId, Reversible, LibKnown, LogExact, LeftOver, Spared;
      ghost var all, index, queue := chain, forks.index, popped;
      SoundShape();
      HoldsShape(forks.index, chain, log);
      SwitchMeans(rules, genesis, index, all, log, tip);
      var branches := FetchFork(tip);
      if branches.None? {
        TipAbove(index, tip, |all|);
        return Unconnected;
      }
      var first, second := branches.value.first, branches.value.second;
      ghost var c: nat, up := Fork(index, all, tip), NewBranch(index, all, tip);
      FetchedShape(index, all, log, tip, first, second, c);
      var ok := PopTo(second[|second| - 1].previous, Held(first), c, up);
      if !ok {
        SoundShape();
        BelowLog(rules, genesis, index, all, log, tip, first, second, c, queue, popped);
        UndoneIfReversible(rules, genesis, index, all, log, tip);
        StrandedLost(rules, genesis, all, log, queue, chain, undo, log, popped, forks.index, forks.head, c, up);
        return Stranded;
      }
      r := TryBranch(first, second, all, tip, c, queue);
      SoundShape();
      if r == Switched {
        LogExactIf(log, chain, state.lib, |old(log)|);
        LibAfterSwitch(rules, genesis, index, all, queue, tip, chain, popped, old(state).lib, state.lib);
      } else {
        UndoneIfReversible(rules, genesis, index, all, old(log), tip);
        if r == Stranded {
          StrandedLost(rules, genesis, all, old(log), queue, chain, undo, log, popped, forks.index, forks.head, c,
                       up);
        }
      }
    }

    /** Applies a block to the head. If it fails, the fork database forgets it, but not that it was or is
        its head. */
    method PushLinear(b: Block, ghost before: Index) returns (ok: bool)
      requires Sound() && Holds(before, chain, log) && forks.head.Some? && forks.head.value.previous == HeadId(chain)
      requires forks.index == before[Id(b) := b] && Heights(before, |chain|) && (Id(b) in before ==> before[Id(b)] == b)
      modifies `chain, `state, `undo, `log, forks`index, forks`maxSize
      ensures Sound() && (ok <==> Step(rules, old(state), b).Some?)
      ensures ok ==> Step(rules, old(state), b) == Some(state)
      ensures forks.maxSize == if ok then |chain| - state.lib + 1 else old(forks.maxSize)
      ensures ok ==> forall id :: id in forks.index <==> id in old(forks.index) && id.num + 1 >= state.lib
      ensures ok ==> LeftOver(old(forks.index), forks.index, state.lib)
      ensures ok ==> chain == old(chain) + [b] && b.previous == HeadId(old(chain)) && old(state).lib <= state.lib
      ensures ok ==> |log| == LogTo(|old(log)|, state.lib)
      ensures ok ==> (LogExact(log, chain, state.lib) <==> |old(log)| <= state.lib)
      ensures Running() <==> ok || Id(b) !in Ids(chain[Low(log)..])
      ensures !ok ==> chain == old(chain) && state == old(state) && log == old(log) && forks.index == before - {Id(b)}
      ensures old(log) <= log <= chain
    {
      hide Replay, Consistent, Holds, Lawful, Heights, Trimmed, HeadFits, Ids, HeadId, Step, Logged, LogExact;
      SoundShape();
      LinearReady(before, chain, log, b, forks.head.value);
      ghost var stored := forks.index;
      ok := ApplyBlock(b);
      SoundShape();
      if ok {
        HeightsTrimmed(stored, |chain|, state.lib);
        TrimmedIs(stored, |chain|, state.lib);
        LogExactIf(log, chain, state.lib, |old(log)|);
      } else {
        forks.Remove(Id(b));
        assert forks.index == before - {Id(b)};
        Forgotten(before, chain, log, b, |chain|);
      }
    }

    /** Takes in a block from the network or from this node. */
    method PushBlock(b: Block) returns (r: Outcome)
      requires Running() && (Id(b) in forks.index ==> forks.index[Id(b)] == b)
      modifies `chain, `state, `undo, `log, `popped, forks`head, forks`index, forks`maxSize
      ensures r == old(Verdict(rules, genesis, forks.index, forks.head, forks.maxSize, chain, state, log, b))
      ensures r == Refused <==> (
        && old(forks.head).Some?
        && (Num(b) + old(forks.maxSize) <= Num(old(forks.head).value)
            || (b.previous != ZERO_ID && b.previous !in old(forks.index))))
      ensures r == Extended || r == Failed <==> r != Refused && (old(Ahead()) || b.previous == HeadId(old(chain)))
      ensures r == Extended ==> Step(rules, old(state), b) == Some(state)
      ensures r == Failed ==> Step(rules, old(state), b) == None
      ensures r == KeptAside <==>
        r != Refused && !old(Ahead()) && b.previous != HeadId(old(chain)) && Num(b) <= |old(chain)|
      ensures r == Unconnected || r == Switched || r == SwitchFailed || r == Stranded ==>
        var stored, was := old(forks.index)[Id(b) := b], old(chain);
        && Keyed(stored) && r == SwitchVerdict(rules, genesis, stored, was, old(log), b)
        && (r == Unconnected <==> Fork(stored, was, b) < 0)
        && (r == Switched <==> (
              && |old(log)| <= Fork(stored, was, b) < |was|
              && Replay(rules, genesis, was[..Fork(stored, was, b)] + NewBranch(stored, was, b)).Some?))
      ensures r == Refused || r == Failed || r == KeptAside || r == Unconnected ==>
        log == old(log) && forks.maxSize == old(forks.maxSize)
      ensures Running() <==> Survives(r, old(chain), old(log), b)
      ensures Sound() && old(log) <= log <= chain && state.lib <= |log|
      ensures r == Extended || r == Switched ==> |log| == if state.lib > |old(log)| then state.lib else |old(log)|
      ensures r == Extended || r == Switched ==> (LogExact(log, chain, state.lib) <==> |old(log)| <= state.lib)
      ensures !r.Switched? && !r.Stranded? ==> old(state).lib <= state.lib
      ensures r == Switched ==>
        var stored, was := old(forks.index)[Id(b) := b], old(chain);
        LibKnown(rules, genesis, was, Fork(stored, was, b), NewBranch(stored, was, b), old(state).lib, state.lib)
      ensures r == SwitchFailed ==>
        var stored, was := old(forks.index)[Id(b) := b], old(chain);
        && Keyed(stored) && Fork(stored, was, b) >= 0
        && |log| == LogTo(|old(log)|, LibOf(rules, genesis, Tried(rules, genesis, stored, was, b)))
      ensures !r.Extended? && !r.Switched? && !r.Stranded? ==> chain == old(chain) && state == old(state)
      ensures !r.Switched? && !r.SwitchFailed? && !r.Stranded? ==> popped == old(popped)
      ensures r == Refused || r == KeptAside ==> forks.head == old(forks.head)
      ensures forks.index == match r
        case Refused => old(forks.index)
        case KeptAside => old(forks.index)[Id(b) := b]
        case Unconnected => old(forks.index)[Id(b) := b]
        case Failed => old(forks.index) - {Id(b)}
        case _ => forks.index
      ensures r == Extended ==> (
        && forks.maxSize == |chain| - state.lib + 1
        && forall id :: id in forks.index <==> id in old(forks.index)[Id(b) := b] && id.num + 1 >= state.lib)
      ensures r == Extended || r == Switched ==> LeftOver(old(forks.index)[Id(b) := b], forks.index, state.lib)
      ensures r == SwitchFailed ==>
        var stored, was := old(forks.index)[Id(b) := b], old(chain);
        var c, up := Fork(stored, was, b), NewBranch(stored, was, b);
        Keyed(stored) && c >= 0 && Spared(stored, forks.index, up[Good(rules, genesis, UpTo(was, c), up)..], c)
      ensures r == Extended ==> b.previous == HeadId(old(chain)) && chain == old(chain) + [b]
      ensures r == Extended || r == Failed ==> forks.head == if old(Ahead()) then old(forks.head) else Some(b)
      ensures r == Unconnected ==> forks.head == Some(b)
      ensures r == Switched || r == SwitchFailed ==> Synced()
      ensures r == Switched ==>
        var stored, was := old(forks.index)[Id(b) := b], old(chain);
        SwitchDone(stored, was, old(popped), b, chain, popped, Fork(stored, was, b), NewBranch(stored, was, b))
      ensures r == SwitchFailed ==>
        var stored, was := old(forks.index)[Id(b) := b], old(chain);
        SwitchUndone(rules, genesis, stored, was, old(popped), b, chain, popped, forks.index, Fork(stored, was, b),
                     NewBranch(stored, was, b))
      ensures r == SwitchFailed || r == Stranded ==>
        var stored, was := old(forks.index)[Id(b) := b], old(chain);
        && Keyed(stored) && Fork(stored, was, b) >= 0
        && (Reversible(rules, genesis, stored, was, old(log), b)
            <==> chain == was && state == old(state) && Synced())
      ensures r == Stranded ==>
        var stored, was := old(forks.index)[Id(b) := b], old(chain);
        SwitchStranded(rules, genesis, was, old(log), old(popped), chain, undo, log, popped, forks.index, forks.head,
                       Fork(stored, was, b), NewBranch(stored, was, b))
    {
      hide Replay, Consistent, Transactions, Stored, Numbered, Fork, NewBranch, Lawful, Holds, Heights, Step, Ids,
        SwitchDone, SwitchUndone, SwitchStranded, SwitchVerdict, Keyed, Reversible, LibOf, Tried, LibKnown, LogExact, Runs,
        HeadId, Spared, LeftOver, Good, UpTo;
      ghost var before := forks.index;
      RunningShape();
      SoundShape();
      HoldsShape(forks.index, chain, log);
      HeadNum(chain);
      NoZero(forks.index);
      HeightsMore(forks.index, b, |chain|);
      var pushed := forks.PushBlock(b);
      if !pushed.Linked? {
        return Refused;
      }
      Stores(before, chain, log, b);
      StoredAgain(before, b);
      if pushed.head.previous != state.headId {
        if Num(pushed.head) > state.headId.num {
          r := SwitchTo(b);
          SoundShape();
          return;
        }
        StillRuns(rules, genesis, before, forks.head, chain, state, undo, log, b);
        return KeptAside;
      }
      var applied := PushLinear(b, before);
      return if applied then Extended else Failed;
    }

    lemma {:induction false} RunningShape()
      requires Running()
      ensures Sound() && Holds(forks.index, chain, log) && Heights(forks.index, |chain|)
      ensures forks.head.None? ==> chain == []
      ensures forks.head.Some? ==> Num(forks.head.value) == |chain| || Ahead()
    {
    }

    lemma {:induction false} SoundShape()
      requires Sound()
      ensures |undo| == |chain| - |log| && log <= chain && Numbered(chain) && state.headId == HeadId(chain)
      ensures Replay(rules, genesis, chain) == Some(state) && state.lib <= |log| && Lawful(rules) && Genesis(genesis)
      ensures LibOf(rules, genesis, chain) == state.lib
    {
      hide Replay;
      ReplayNumbers(rules, genesis, chain);
    }
  }

  /** A block kept aside leaves the node in order. */
  lemma {:induction false} StillRuns(rules: Rules, genesis: State, index: Index, head: Option<Block>,
                                     chain: seq<Block>,
                                     state: State, undo: seq<State>, log: seq<Block>, b: Block)
    requires Runs(rules, genesis, index, head, chain, state, undo, log) && Num(b) <= |chain|
    requires Id(b) in index ==> index[Id(b)] == b
    ensures Runs(rules, genesis, index[Id(b) := b], head, chain, state, undo, log)
  {
    hide Consistent, Holds, Heights;
    Stores(index, chain, log, b);
    HeightsMore(index, b, |chain|);
  }

  lemma {:induction false} LibAfterSwitch(rules: Rules, genesis: State, index: Index, was: seq<Block>,
                                          queue: seq<Transaction>, tip: Block, after: seq<Block>,
                                          popped: seq<Transaction>, lib: nat, lib': nat)
    requires Keyed(index) && Genesis(genesis)
    requires SwitchDone(index, was, queue, tip, after, popped, Fork(index, was, tip), NewBranch(index, was, tip))
    requires Replay(rules, genesis, was).Some? && Replay(rules, genesis, was).value.lib == lib
    requires Replay(rules, genesis, after).Some? && Replay(rules, genesis, after).value.lib == lib'
    ensures LibKnown(rules, genesis, was, Fork(index, was, tip), NewBranch(index, was, tip), lib, lib')
  {
    hide Replay, ByConfirmation, LibAsConfirmed, Fork, NewBranch, Transactions, Numbered, Stored;
    forall votes | ByConfirmation(rules, votes)
      ensures LibAsConfirmed(rules, votes, genesis, was, Fork(index, was, tip), NewBranch(index, was, tip), lib, lib')
    {
      SwitchedLib(rules, votes, genesis, was, Fork(index, was, tip), NewBranch(index, was, tip));
    }
  }
}
