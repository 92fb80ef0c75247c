/** The irreversible height that confirmations give is the kind that the chain database relies on; and what
    becomes of it when the chain is left for another branch. */
module Finality {
  import opened Wrappers
  import opened Entities
  import opened Blocks
  import opened ChainReplay
  import opened ForkSwitch
  import opened Irreversibility
  import opened Sets

  /** The schedule and the confirmations that apply when a block is applied to a state, its own included. */
  type Votes = imap<(State, Block), (seq<Name>, map<Name, int>)>

  /** The irreversible height moves as the confirmations say. */
  ghost predicate Confirms(s: State, b: Block, next: State, scheduled: seq<Name>, confirmed: map<Name, int>) {
    && scheduled != [] && (forall x :: x in confirmed ==> 0 <= confirmed[x] <= Num(b))
    && LibFits(s.headId.num, s.lib) && LibFollows(Num(b), s.lib, next.lib, scheduled, confirmed)
  }

  /** Every block that applies builds on the head, becomes the head, and moves the irreversible height as its
      confirmations say. */
  ghost predicate ByConfirmation(rules: Rules, votes: Votes) {
    forall s, b {:trigger Step(rules, s, b)} :: Step(rules, s, b).Some? ==>
      var next := Step(rules, s, b).value;
      && b.previous == s.headId && next.headId == Id(b)
      && (s, b) in votes && Confirms(s, b, next, votes[(s, b)].0, votes[(s, b)].1)
  }

  /** Application that follows the confirmations is lawful. */
  lemma {:induction false} ConfirmationIsLawful(rules: Rules, votes: Votes)
    requires ByConfirmation(rules, votes)
    ensures Lawful(rules)
  {
    hide LibFits, LibFollows;
    forall s, b {:trigger Step(rules, s, b)} | Step(rules, s, b).Some?
      ensures s.lib <= Step(rules, s, b).value.lib <= Num(b)
    {
      var next := Step(rules, s, b).value;
      LibBounds(Num(b), s.lib, next.lib, votes[(s, b)].0, votes[(s, b)].1);
    }
  }

  /** Applying the block makes height h irreversible: by its distance from the head or, once adoring has started,
      because a quorum has built on it. */
  ghost predicate Makes(votes: Votes, s: State, b: Block, h: nat) {
    if Num(b) < START_ADORING_BLOCK then h + MAX_SIMINGS <= Num(b)
    else (s, b) in votes && Quorum(votes[(s, b)].0, votes[(s, b)].1, h)
  }

  /** Block i of a branch makes height h irreversible. */
  ghost predicate Raises(rules: Rules, votes: Votes, genesis: State, base: seq<Block>, up: seq<Block>, i: nat, h: nat)
    requires i < |up|
  {
    var before := Replay(rules, genesis, base + up[..i]);
    before.Some? && Makes(votes, before.value, up[i], h)
  }

  /** A quorum for a height is one for every lower height. */
  lemma {:induction false} QuorumBelow(scheduled: seq<Name>, confirmed: map<Name, int>, h: int, low: int)
    requires Quorum(scheduled, confirmed, h) && low <= h
    ensures Quorum(scheduled, confirmed, low)
  {
    SubsetCount(Confirming(scheduled, confirmed, h), Confirming(scheduled, confirmed, low));
  }

  /** One block leaves a height reversible exactly if it was and the block does not make it irreversible. */
  lemma {:induction false} StepBelow(votes: Votes, s: State, b: Block, next: State, h: nat)
    requires (s, b) in votes && Confirms(s, b, next, votes[(s, b)].0, votes[(s, b)].1) && b.previous == s.headId
    requires h >= 1
    ensures next.lib < h <==> s.lib < h && !Makes(votes, s, b, h)
  {
    hide Quorum;
    var (scheduled, confirmed) := votes[(s, b)];
    if Num(b) >= START_ADORING_BLOCK && s.lib < h <= next.lib {
      QuorumBelow(scheduled, confirmed, next.lib, h);
    }
  }

  /** Over a branch a height stays reversible exactly if it was at the base and no block makes it irreversible. */
  lemma {:induction false} BranchBelow(rules: Rules, votes: Votes, genesis: State, base: seq<Block>, up: seq<Block>,
                                       h: nat)
    requires ByConfirmation(rules, votes) && Replay(rules, genesis, base + up).Some? && h >= 1
    ensures LibOf(rules, genesis, base + up) < h
      <==> LibOf(rules, genesis, base) < h && forall i :: 0 <= i < |up| ==> !Raises(rules, votes, genesis, base, up, i, h)
  {
    hide Replay, Makes, Confirms;
    if up == [] {
      assert base + up == base;
    } else {
      var n := |up| - 1;
      var rest := up[..n];
      assert base + up == base + rest + [up[n]] && base + up[..n] == base + rest;
      ReplayPush(rules, genesis, base + rest, up[n]);
      BranchBelow(rules, votes, genesis, base, rest, h);
      var s := Replay(rules, genesis, base + rest).value;
      StepBelow(votes, s, up[n], Step(rules, s, up[n]).value, h);
      forall i | 0 <= i < n
        ensures Raises(rules, votes, genesis, base, up, i, h) <==> Raises(rules, votes, genesis, base, rest, i, h)
      {
        assert rest[..i] == up[..i];
      }
      assert Raises(rules, votes, genesis, base, up, n, h) <==> Makes(votes, s, up[n], h);
    }
  }

  /** Until adoring has started the height is at its fixed distance, whatever the chain. */
  lemma {:induction false} LibByDistance(rules: Rules, votes: Votes, genesis: State, chain: seq<Block>)
    requires ByConfirmation(rules, votes) && Genesis(genesis) && Replay(rules, genesis, chain).Some?
    ensures LibFits(|chain|, LibOf(rules, genesis, chain))
  {
    ConfirmationIsLawful(rules, votes);
    if chain != [] {
      hide Replay, LibFits, LibFollows, Lawful;
      var n := |chain| - 1;
      assert chain == chain[..n] + [chain[n]];
      ReplayPush(rules, genesis, chain[..n], chain[n]);
      LibByDistance(rules, votes, genesis, chain[..n]);
      ReplayNumbers(rules, genesis, chain);
      NumberedAt(chain, n);
      var s := Replay(rules, genesis, chain[..n]).value;
      LibBounds(Num(chain[n]), s.lib, LibOf(rules, genesis, chain), votes[(s, chain[n])].0, votes[(s, chain[n])].1);
    }
  }

  /** How the irreversible height, `before` on the chain `was`, is after a switch to the branch `up` from block c: it has
      fallen exactly if it was lower at the fork and no block of the branch makes the old height irreversible
      again; and never before adoring has started. */
  ghost predicate LibAsConfirmed(rules: Rules, votes: Votes, genesis: State, was: seq<Block>, c: int, up: seq<Block>,
                                 before: nat, after: nat) {
    && 0 <= c < |was|
    && (after < before <==>
          LibOf(rules, genesis, was[..c]) < before
          && forall i :: 0 <= i < |up| ==> !Raises(rules, votes, genesis, was[..c], up, i, before))
    && (|was| < START_ADORING_BLOCK ==> before <= after)
  }

  /** Whatever the confirmations are, they tell what the switch has done to the irreversible height. */
  ghost predicate LibKnown(rules: Rules, genesis: State, was: seq<Block>, c: int, up: seq<Block>, before: nat, after: nat) {
    forall votes :: ByConfirmation(rules, votes) ==> LibAsConfirmed(rules, votes, genesis, was, c, up, before, after)
  }

  lemma {:induction false} SwitchedLib(rules: Rules, votes: Votes, genesis: State, was: seq<Block>, c: nat,
                                       up: seq<Block>)
    requires ByConfirmation(rules, votes) && Genesis(genesis) && c < |was| < c + |up|
    requires Replay(rules, genesis, was).Some? && Replay(rules, genesis, was[..c] + up).Some?
    ensures LibAsConfirmed(rules, votes, genesis, was, c, up, LibOf(rules, genesis, was),
                           LibOf(rules, genesis, was[..c] + up))
  {
    hide Replay, Lawful, Raises;
    var before, all := LibOf(rules, genesis, was), was[..c] + up;
    if before >= 1 {
      BranchBelow(rules, votes, genesis, was[..c], up, before);
    }
    if |was| < START_ADORING_BLOCK {
      ConfirmationIsLawful(rules, votes);
      ReplayPrefix(rules, genesis, all, |was|);
      LibByDistance(rules, votes, genesis, was);
      LibByDistance(rules, votes, genesis, all[..|was|]);
    }
  }
}
