/** A node at which the irreversible height falls. The chain has just reached the height at which adoring starts. Simings 1
    and 2 have built on block LIFTED; block P, by siming 3, makes it irreversible. Then R by 1 and S by 2 arrive, which were
    made without P: they are the higher branch, and none of 3 and 4 has confirmed anything on it. */
module FinalityExample {
  import opened Wrappers
  import opened Entities
  import opened Blocks
  import opened ForkDatabase
  import opened ChainReplay
  import opened ChainIndex
  import opened ForkSwitch
  import opened Irreversibility
  import opened Finality
  import opened Sets

  const LAST := START_ADORING_BLOCK - 1
  const LIFTED := LAST - MAX_SIMINGS + 1

  function Distance(n: nat): nat {
    if n > MAX_SIMINGS then n - MAX_SIMINGS else 0
  }

  function Main(n: int): Block
    requires n >= 1
  {
    Block(BlockId(n - 1, 0), 0, [])
  }

  function After(n: nat): State {
    State(BlockId(n, 0), Distance(n), 0)
  }

  function P(): Block { Block(BlockId(LAST, 0), 1, []) }
  function R(): Block { Block(BlockId(LAST, 0), 2, []) }
  function S(): Block { Block(Id(R()), 3, []) }

  function AfterP(): State { State(Id(P()), LIFTED, 1) }
  function AfterR(): State { State(Id(R()), LIFTED - 1, 2) }
  function AfterS(): State { State(Id(S()), LIFTED - 1, 3) }

  ghost predicate Applies(s: State, b: Block) {
    || (s.headId.num < LAST && s == After(s.headId.num) && b == Main(s.headId.num + 1))
    || (s == After(LAST) && (b == P() || b == R()))
    || (s == AfterR() && b == S())
  }

  ghost function Next(s: State, b: Block): State {
    if b == P() then AfterP() else if b == R() then AfterR() else if b == S() then AfterS() else After(s.headId.num + 1)
  }

  ghost function Confirmed(b: Block): map<Name, int> {
    if b == P() then map[1 := LIFTED, 2 := LIFTED, 3 := LAST + 1, 4 := 0]
    else if b == R() then map[1 := LAST + 1, 2 := LIFTED, 3 := LIFTED - 1, 4 := 0]
    else if b == S() then map[1 := LAST + 1, 2 := LAST + 2, 3 := LIFTED - 1, 4 := 0]
    else map[1 := 0, 2 := 0, 3 := 0, 4 := 0]
  }

  ghost function TheRules(): Rules {
    imap p: (State, Block) | Applies(p.0, p.1) :: Next(p.0, p.1)
  }

  ghost function TheVotes(): Votes {
    imap p: (State, Block) | Applies(p.0, p.1) :: ([1, 2, 3, 4], Confirmed(p.1))
  }

  function Base(n: nat): (chain: seq<Block>)
    ensures |chain| == n
  {
    seq(n, i requires 0 <= i < n => Main(i + 1))
  }

  /** Only P gives LIFTED its quorum, and nothing gives one to a greater height. */
  lemma {:induction false} Quorums(h: int)
    requires h >= LIFTED
    ensures Quorum([1, 2, 3, 4], Confirmed(P()), h) <==> h == LIFTED
    ensures !Quorum([1, 2, 3, 4], Confirmed(R()), h) && !Quorum([1, 2, 3, 4], Confirmed(S()), h)
  {
    assert Offset(4) == 1;
    var p := Confirming([1, 2, 3, 4], Confirmed(P()), h);
    if h == LIFTED {
      SubsetCount({1, 2, 3}, p);
    } else {
      SubsetCount(p, {3});
    }
    SubsetCount(Confirming([1, 2, 3, 4], Confirmed(R()), h), {1, 2});
    SubsetCount(Confirming([1, 2, 3, 4], Confirmed(S()), h), {1, 2});
  }

  lemma {:induction false} StepConfirms(s: State, b: Block)
    requires Applies(s, b)
    ensures b.previous == s.headId && Next(s, b).headId == Id(b)
    ensures Confirms(s, b, Next(s, b), [1, 2, 3, 4], Confirmed(b))
  {
    hide Quorum;
    forall h | h >= LIFTED
      ensures !Quorum([1, 2, 3, 4], Confirmed(R()), h) && !Quorum([1, 2, 3, 4], Confirmed(S()), h)
      ensures Quorum([1, 2, 3, 4], Confirmed(P()), h) <==> h == LIFTED
    {
      Quorums(h);
    }
  }

  lemma {:induction false} RulesFollow()
    ensures ByConfirmation(TheRules(), TheVotes()) && Lawful(TheRules()) && Genesis(After(0))
  {
    hide Confirms, Applies, Next, Confirmed;
    forall s, b {:trigger Step(TheRules(), s, b)} | Step(TheRules(), s, b).Some?
      ensures Applies(s, b) && Step(TheRules(), s, b) == Some(Next(s, b))
      ensures b.previous == s.headId && Next(s, b).headId == Id(b)
      ensures Confirms(s, b, Next(s, b), [1, 2, 3, 4], Confirmed(b))
    {
      StepConfirms(s, b);
    }
    ConfirmationIsLawful(TheRules(), TheVotes());
  }

  lemma {:induction false} BaseApplies(n: nat)
    requires n <= LAST
    ensures Replay(TheRules(), After(0), Base(n)) == Some(After(n))
  {
    if n > 0 {
      hide Replay, Step, TheRules;
      BaseApplies(n - 1);
      assert Base(n) == Base(n - 1) + [Main(n)];
      ReplayPush(TheRules(), After(0), Base(n - 1), Main(n));
      MainStep(n);
    }
  }

  lemma {:induction false} MainStep(n: nat)
    requires 1 <= n <= LAST
    ensures Step(TheRules(), After(n - 1), Main(n)) == Some(After(n))
  {
    assert Applies(After(n - 1), Main(n));
  }

  lemma {:induction false} BranchesApply()
    ensures Replay(TheRules(), After(0), Base(LAST) + [P()]) == Some(AfterP())
    ensures Replay(TheRules(), After(0), Base(LAST) + [R()]) == Some(AfterR())
    ensures Replay(TheRules(), After(0), Base(LAST) + [R(), S()]) == Some(AfterS())
  {
    hide Replay;
    BaseApplies(LAST);
    ReplayPush(TheRules(), After(0), Base(LAST), P());
    ReplayPush(TheRules(), After(0), Base(LAST), R());
    ReplayPush(TheRules(), After(0), Base(LAST) + [R()], S());
    assert Base(LAST) + [R()] + [S()] == Base(LAST) + [R(), S()];
    assert Applies(After(LAST), P()) && Applies(After(LAST), R()) && Applies(AfterR(), S());
  }

  function Chain(): seq<Block> {
    Base(LAST) + [P()]
  }

  /** The states to go back to: those after the blocks from the last logged one on. */
  function Undo(): seq<State> {
    seq(LAST + 1 - LIFTED, i requires 0 <= i => After(LIFTED + i))
  }

  /** The reversible blocks of the chain, and R. */
  function Known(): Index {
    (map n: int | LIFTED <= n <= LAST :: BlockId(n, 0) := Main(n))[Id(P()) := P()][Id(R()) := R()]
  }

  lemma {:induction false} NodeConsistent()
    ensures Consistent(TheRules(), After(0), Chain(), AfterP(), Undo(), Base(LIFTED))
  {
    hide Replay, Lawful, TheRules;
    RulesFollow();
    BranchesApply();
    var chain, log, undo := Chain(), Base(LIFTED), Undo();
    forall i | 0 <= i < |undo|
      ensures Replay(TheRules(), After(0), chain[..|log| + i]) == Some(undo[i])
    {
      BaseApplies(LIFTED + i);
      assert chain[..|log| + i] == Base(LIFTED + i);
    }
    assert log <= chain;
  }

  lemma {:induction false} NodeHolds()
    ensures Holds(Known(), Chain(), Base(LIFTED)) && Heights(Known(), |Chain()|)
  {
    var chain := Chain();
    var part := chain[Low(Base(LIFTED))..];
    forall i | 0 <= i < |part|
      ensures Id(part[i]) in Known() && Known()[Id(part[i])] == part[i]
    {
      assert part[i] == chain[LIFTED - 1 + i];
    }
  }

  lemma {:induction false} BranchFound()
    ensures var index := Known()[Id(S()) := S()];
            Keyed(index) && Fork(index, Chain(), S()) == LAST && NewBranch(index, Chain(), S()) == [R(), S()]
  {
    var index, chain := Known()[Id(S()) := S()], Chain();
    assert Keyed(index) && chain[|chain| - 1] == P();
    assert Prev(index, S()) == Some(R());
    assert Ancestor(index, S(), LAST + 1) == Some(R()) && Ancestor(index, P(), LAST + 1) == Some(P());
    assert Common(index, S(), P(), LAST);
    assert UpFrom(index, R(), LAST) == [R()] && UpFrom(index, S(), LAST) == [R(), S()];
  }

  lemma {:induction false} BranchSwitched()
    ensures SwitchVerdict(TheRules(), After(0), Known()[Id(S()) := S()], Chain(), Base(LIFTED), S()) == Switched
  {
    hide Replay, Good, TheRules, Known, Fork, NewBranch, Reversible;
    BranchesApply();
    BranchFound();
    assert UpTo(Chain(), LAST) == Base(LAST);
    assert [R(), S()][..2] == [R(), S()];
    GoodIs(TheRules(), After(0), Base(LAST), [R(), S()], 2);
  }

  /** The node runs; S is switched to, as it must be; and the irreversible height is one lower than before. */
  lemma {:induction false} FallingExample()
    ensures ByConfirmation(TheRules(), TheVotes())
    ensures Runs(TheRules(), After(0), Known(), Some(P()), Chain(), AfterP(), Undo(), Base(LIFTED))
    ensures Verdict(TheRules(), After(0), Known(), Some(P()), MAX_SIMINGS + 1, Chain(), AfterP(), Base(LIFTED), S()) == Switched
    ensures LibOf(TheRules(), After(0), Chain()) == LIFTED
    ensures LibOf(TheRules(), After(0), Base(LAST) + [R(), S()]) == LIFTED - 1
  {
    hide Replay, TheRules, TheVotes, ByConfirmation, Consistent, Holds, Heights, Known, Base, Step, SwitchVerdict,
      Keyed,
      Undo;
    RulesFollow();
    BranchesApply();
    NodeConsistent();
    NodeHolds();
    HoldsShape(Known(), Chain(), Base(LIFTED));
    KnownR();
    BranchSwitched();
  }

  lemma {:induction false} KnownR()
    ensures Id(R()) in Known()
  {
  }
}
