/** What applying blocks does, and how the state, the undo stack and the log follow the chain. */
module ChainReplay {
  import opened Blocks
  import opened Wrappers

  datatype State = State(headId: BlockId, lib: nat, rest: int)

  /** What applying a block does to a state; a pair that is not there is a block that fails. */
  type Rules = imap<(State, Block), State>

  function Step(rules: Rules, s: State, b: Block): Option<State> {
    if (s, b) in rules then Some(rules[(s, b)]) else None
  }

  /** Application checks that the block builds on the head, makes it the head, and moves the last
      irreversible block forwards, never past the head. */
  ghost predicate Lawful(rules: Rules) {
    forall s, b {:trigger Step(rules, s, b)} :: Step(rules, s, b).Some? ==>
      var next := Step(rules, s, b).value;
      b.previous == s.headId && next.headId == Id(b) && s.lib <= next.lib <= Num(b)
  }

  /** The state after all blocks in turn, if each applies. */
  ghost function Replay(rules: Rules, s: State, blocks: seq<Block>): Option<State> {
    if blocks == [] then Some(s) else
      match Replay(rules, s, blocks[..|blocks| - 1])
      case None => None
      case Some(t) => Step(rules, t, blocks[|blocks| - 1])
  }

  ghost function Transactions(blocks: seq<Block>): seq<Transaction> {
    if blocks == [] then [] else Transactions(blocks[..|blocks| - 1]) + blocks[|blocks| - 1].transactions
  }

  function HeadId(chain: seq<Block>): BlockId {
    if chain == [] then ZERO_ID else Id(chain[|chain| - 1])
  }

  ghost predicate Follows(chain: seq<Block>, i: nat)
    requires i < |chain|
  {
    chain[i].previous == if i == 0 then ZERO_ID else Id(chain[i - 1])
  }

  /** Numbered from 1, each block naming the one before it. */
  ghost predicate Numbered(chain: seq<Block>) {
    forall i :: 0 <= i < |chain| ==> Follows(chain, i)
  }

  lemma {:induction false} NumberedAt(chain: seq<Block>, i: nat)
    requires Numbered(chain) && i < |chain|
    ensures Num(chain[i]) == i + 1
  {
    assert Follows(chain, i);
    if i > 0 {
      NumberedAt(chain, i - 1);
    }
  }

  ghost predicate Genesis(s: State) {
    s.headId == ZERO_ID && s.lib == 0
  }

  lemma {:induction false} ReplayPush(rules: Rules, s: State, blocks: seq<Block>, b: Block)
    ensures Replay(rules, s, blocks + [b]) ==
      match Replay(rules, s, blocks) case None => None case Some(t) => Step(rules, t, b)
  {
    assert (blocks + [b])[..|blocks + [b]| - 1] == blocks;
  }

  lemma {:induction false} TransactionsPush(blocks: seq<Block>, b: Block)
    ensures Transactions(blocks + [b]) == Transactions(blocks) + b.transactions
  {
    assert (blocks + [b])[..|blocks + [b]| - 1] == blocks;
  }

  lemma {:induction false} TransactionsJoin(xs: seq<Block>, ys: seq<Block>)
    ensures Transactions(xs + ys) == Transactions(xs) + Transactions(ys)
  {
    if ys == [] {
      assert xs + ys == xs;
    } else {
      var n := |ys| - 1;
      TransactionsJoin(xs, ys[..n]);
      assert ys == ys[..n] + [ys[n]] && xs + ys == (xs + ys[..n]) + [ys[n]];
      TransactionsPush(xs + ys[..n], ys[n]);
    }
  }

  lemma {:induction false} TransactionsFrom(all: seq<Block>, k: nat)
    requires k < |all|
    ensures Transactions(all[k..]) == all[k].transactions + Transactions(all[k + 1..])
  {
    TransactionsJoin([all[k]], all[k + 1..]);
    TransactionsPush([], all[k]);
    assert [] + [all[k]] == [all[k]] && [all[k]] + all[k + 1..] == all[k..];
  }

  /** A prefix of a chain that applies also applies, and its last irreversible block is no later. */
  lemma {:induction false} ReplayPrefix(rules: Rules, s: State, blocks: seq<Block>, k: nat)
    requires Lawful(rules) && Replay(rules, s, blocks).Some? && k <= |blocks|
    ensures Replay(rules, s, blocks[..k]).Some?
    ensures Replay(rules, s, blocks[..k]).value.lib <= Replay(rules, s, blocks).value.lib
  {
    if k == |blocks| {
      assert blocks[..k] == blocks;
    } else {
      var shorter := blocks[..|blocks| - 1];
      ReplayPrefix(rules, s, shorter, k);
      assert shorter[..k] == blocks[..k];
    }
  }

  lemma {:induction false} ReplayNumbers(rules: Rules, s: State, blocks: seq<Block>)
    requires Lawful(rules) && Genesis(s) && Replay(rules, s, blocks).Some?
    ensures Numbered(blocks)
    ensures Replay(rules, s, blocks).value.headId == HeadId(blocks)
    ensures Replay(rules, s, blocks).value.lib <= |blocks|
  {
    if blocks != [] {
      var n := |blocks| - 1;
      ReplayNumbers(rules, s, blocks[..n]);
      assert forall i :: 0 <= i < n && Follows(blocks[..n], i) ==> Follows(blocks, i);
      assert Follows(blocks, n);
      NumberedAt(blocks, n);
    }
  }

  /** The state is the replay of the chain, the log is a prefix of it that reaches the last irreversible
      block, and the undo stack holds the state before each later block. */
  ghost predicate Consistent(rules: Rules, genesis: State, chain: seq<Block>, state: State, undo: seq<State>,
                             log: seq<Block>) {
    && Lawful(rules) && Genesis(genesis)
    && Replay(rules, genesis, chain) == Some(state)
    && log <= chain && state.lib <= |log| && |undo| == |chain| - |log|
    && forall i :: 0 <= i < |undo| ==> Replay(rules, genesis, chain[..|log| + i]) == Some(undo[i])
  }

  /** Undoing the last block. */
  lemma {:induction false} UndoKeeps(rules: Rules, genesis: State, chain: seq<Block>, state: State,
                                     undo: seq<State>, log: seq<Block>)
    requires Consistent(rules, genesis, chain, state, undo, log) && undo != []
    ensures Consistent(rules, genesis, chain[..|chain| - 1], undo[|undo| - 1], undo[..|undo| - 1], log)
  {
    var shorter := chain[..|chain| - 1];
    ReplayPrefix(rules, genesis, chain, |chain| - 1);
    forall i | 0 <= i < |undo| - 1
      ensures Replay(rules, genesis, shorter[..|log| + i]) == Some(undo[i])
    {
      assert shorter[..|log| + i] == chain[..|log| + i];
    }
    assert shorter == chain[..|log| + (|undo| - 1)];
  }

  /** The log after a block that makes `lib` irreversible. */
  function Logged(log: seq<Block>, chain: seq<Block>, lib: nat): seq<Block>
    requires lib <= |chain|
  {
    if lib > |log| then chain[..lib] else log
  }

  /** Applying a block, then logging and committing what it made irreversible. */
  lemma {:induction false} ApplyKeeps(rules: Rules, genesis: State, chain: seq<Block>, state: State,
                                      undo: seq<State>, log: seq<Block>, b: Block, next: State)
    requires Consistent(rules, genesis, chain, state, undo, log) && Step(rules, state, b) == Some(next)
    ensures state.lib <= next.lib <= |chain| + 1
    ensures var longer := chain + [b]; var log' := Logged(log, longer, next.lib);
            Consistent(rules, genesis, longer, next, (undo + [state])[|log'| - |log|..], log')
  {
    var longer := chain + [b];
    ReplayPush(rules, genesis, chain, b);
    ReplayNumbers(rules, genesis, longer);
    var log' := Logged(log, longer, next.lib);
    var all := undo + [state];
    forall i | 0 <= i < |all|
      ensures Replay(rules, genesis, longer[..|log| + i]) == Some(all[i])
    {
      if i < |undo| {
        assert longer[..|log| + i] == chain[..|log| + i];
      } else {
        assert longer[..|log| + i] == chain;
      }
    }
    var kept := all[|log'| - |log|..];
    forall i | 0 <= i < |kept|
      ensures Replay(rules, genesis, longer[..|log'| + i]) == Some(kept[i])
    {
      assert kept[i] == all[|log'| - |log| + i];
    }
  }

  /** Blocks below k of the branch apply and block k does not. */
  ghost predicate FirstFailure(rules: Rules, genesis: State, base: seq<Block>, up: seq<Block>, k: nat)
    requires k < |up|
  {
    Replay(rules, genesis, base + up[..k]).Some? && Replay(rules, genesis, base + up[..k + 1]).None?
  }

  lemma {:induction false} NoneAfter(rules: Rules, genesis: State, base: seq<Block>, up: seq<Block>, k: nat, n: nat)
    requires k <= n <= |up| && Replay(rules, genesis, base + up[..k]).None?
    ensures Replay(rules, genesis, base + up[..n]).None?
  {
    hide Replay;
    if k < n {
      NoneAfter(rules, genesis, base, up, k, n - 1);
      assert base + up[..n] == base + up[..n - 1] + [up[n - 1]];
      ReplayPush(rules, genesis, base + up[..n - 1], up[n - 1]);
    }
  }

  lemma {:induction false} NumberedPrefix(line: seq<Block>, n: nat)
    requires Numbered(line) && n <= |line|
    ensures Numbered(line[..n])
  {
    assert forall i :: 0 <= i < n && Follows(line, i) ==> Follows(line[..n], i);
  }

  /** How many blocks of a branch apply on top of the base. */
  ghost function Good(rules: Rules, genesis: State, base: seq<Block>, up: seq<Block>): (k: nat)
    ensures k <= |up|
  {
    if up == [] then 0 else
      var n := |up| - 1;
      if Good(rules, genesis, base, up[..n]) == n && Replay(rules, genesis, base + up).Some? then n + 1
      else Good(rules, genesis, base, up[..n])
  }

  /** The first failing block tells how many apply; without one all do. */
  lemma {:induction false} GoodIs(rules: Rules, genesis: State, base: seq<Block>, up: seq<Block>, k: nat)
    requires k <= |up| && Replay(rules, genesis, base + up[..k]).Some?
    requires k < |up| ==> Replay(rules, genesis, base + up[..k + 1]).None?
    ensures Good(rules, genesis, base, up) == k
  {
    hide Replay;
    if up != [] {
      var n := |up| - 1;
      if k == |up| {
        assert up[..k] == up && base + up == base + up[..n] + [up[n]];
        ReplayPush(rules, genesis, base + up[..n], up[n]);
        assert up[..n][..n] == up[..n];
        GoodIs(rules, genesis, base, up[..n], n);
      } else {
        assert up[..n][..k] == up[..k];
        if k < n {
          assert up[..n][..k + 1] == up[..k + 1];
        } else {
          assert up[..k + 1] == up;
        }
        GoodIs(rules, genesis, base, up[..n], k);
      }
    }
  }

  /** Block Good of a branch is its first that does not apply. */
  lemma {:induction false} GoodFails(rules: Rules, genesis: State, base: seq<Block>, up: seq<Block>)
    requires Replay(rules, genesis, base).Some?
    ensures var k := Good(rules, genesis, base, up);
            && Replay(rules, genesis, base + up[..k]).Some?
            && (k < |up| ==> FirstFailure(rules, genesis, base, up, k))
  {
    hide Replay;
    var k := Good(rules, genesis, base, up);
    if up == [] {
      assert base + up[..0] == base;
    } else {
      var n := |up| - 1;
      GoodFails(rules, genesis, base, up[..n]);
      assert up[..n][..Good(rules, genesis, base, up[..n])] == up[..Good(rules, genesis, base, up[..n])];
      assert up[..n + 1] == up;
      if k < n {
        assert up[..n][..k + 1] == up[..k + 1];
      }
    }
  }

  /** The part of a chain above c applied before, so it applies again. */
  lemma {:induction false} StillApplies(rules: Rules, genesis: State, all: seq<Block>, c: nat)
    requires Replay(rules, genesis, all).Some? && c <= |all|
    ensures Good(rules, genesis, all[..c], all[c..]) == |all| - c
  {
    hide Replay;
    var up := all[c..];
    assert up[..|up|] == up && all[..c] + up == all;
    GoodIs(rules, genesis, all[..c], up, |up|);
  }

  /** What a block that applies builds on and leads to. */
  lemma {:induction false} ApplyShape(rules: Rules, genesis: State, chain: seq<Block>, state: State,
                                      undo: seq<State>, log: seq<Block>, b: Block, next: State)
    requires Consistent(rules, genesis, chain, state, undo, log) && Step(rules, state, b) == Some(next)
    ensures b.previous == HeadId(chain) && Numbered(chain + [b]) && log <= chain && |undo| == |chain| - |log|
    ensures state.lib <= next.lib <= |chain| + 1
  {
    hide Replay;
    ReplayPush(rules, genesis, chain, b);
    ReplayNumbers(rules, genesis, chain);
    ReplayNumbers(rules, genesis, chain + [b]);
  }
}
