/** Small nodes on which the chain database does not do what its callers would expect. */
module ChainExamples {
  import opened Wrappers
  import opened Blocks
  import opened ForkDatabase
  import opened ChainReplay
  import opened ChainIndex
  import opened ForkSwitch

  const GENESIS := State(ZERO_ID, 0, 0)
  const B1 := Block(ZERO_ID, 1, [])
  const B2 := Block(Id(B1), 2, [])
  const C2 := Block(Id(B1), 3, [])
  const C3 := Block(Id(C2), 4, [])
  const X2 := Block(Id(B1), 5, [])
  const AFTER_B1 := State(Id(B1), 0, 1)
  const AFTER_B2 := State(Id(B2), 0, 2)
  const AFTER_C2 := State(Id(C2), 2, 3)

  /** B1, then B2 or C2, which makes itself irreversible. C3 does not apply. */
  const RULES: Rules := imap[(GENESIS, B1) := AFTER_B1, (AFTER_B1, B2) := AFTER_B2, (AFTER_B1, C2) := AFTER_C2]

  ghost function Forked(): Index {
    map[Id(B1) := B1, Id(B2) := B2, Id(C2) := C2]
  }

  lemma {:induction false} RulesAreLawful()
    ensures Lawful(RULES) && Genesis(GENESIS)
    ensures Replay(RULES, GENESIS, []) == Some(GENESIS) && Replay(RULES, GENESIS, [B1]) == Some(AFTER_B1)
    ensures Replay(RULES, GENESIS, [B1, B2]) == Some(AFTER_B2) && Replay(RULES, GENESIS, [B1, C2]) == Some(AFTER_C2)
    ensures Replay(RULES, GENESIS, [B1, C2, C3]) == None
  {
    assert [] + [B1] == [B1] && [B1] + [B2] == [B1, B2] && [B1] + [C2] == [B1, C2] && [B1, C2] + [C3] == [B1, C2, C3];
    ReplayPush(RULES, GENESIS, [], B1);
    ReplayPush(RULES, GENESIS, [B1], B2);
    ReplayPush(RULES, GENESIS, [B1], C2);
    ReplayPush(RULES, GENESIS, [B1, C2], C3);
  }

  /** A node on B1 and B2 with C2 beside them gets C3. C2 applies and is irreversible above the fork, C3 fails,
      and the node cannot go back. */
  lemma {:induction false} StrandedExample()
    ensures Runs(RULES, GENESIS, Forked(), Some(B2), [B1, B2], AFTER_B2, [GENESIS, AFTER_B1], [])
    ensures Verdict(RULES, GENESIS, Forked(), Some(B2), 3, [B1, B2], AFTER_B2, [], C3) == Stranded
    ensures !Survives(Stranded, [B1, B2], [], C3)
  {
    hide Replay, Lawful, Good;
    RulesAreLawful();
    var chain, undo, index := [B1, B2], [GENESIS, AFTER_B1], Forked()[Id(C3) := C3];
    assert chain[..0] == [] && chain[..1] == [B1];
    assert Consistent(RULES, GENESIS, chain, AFTER_B2, undo, []);
    assert Prev(index, C3) == Some(C2);
    assert Ancestor(index, C3, 2) == Some(C2) && Ancestor(index, B2, 2) == Some(B2);
    assert Common(index, C3, B2, 1);
    assert Fork(index, chain, C3) == 1;
    assert UpFrom(index, C2, 1) == [C2] && UpFrom(index, C3, 1) == [C2, C3];
    var up := NewBranch(index, chain, C3);
    assert [B1] + up[..1] == [B1, C2] && [B1] + up[..2] == [B1, C2, C3];
    GoodIs(RULES, GENESIS, [B1], up, 1);
  }

  /** A node on B1 whose fork database's head is X2, which has failed there, gets B1 once more. The block
      is applied on top of itself, fails, and is forgotten, so the fork database no longer holds the chain. */
  lemma {:induction false} ResentExample()
    ensures Runs(RULES, GENESIS, map[Id(B1) := B1], Some(X2), [B1], AFTER_B1, [GENESIS], [])
    ensures Verdict(RULES, GENESIS, map[Id(B1) := B1], Some(X2), 2, [B1], AFTER_B1, [], B1) == Failed
    ensures !Survives(Failed, [B1], [], B1)
  {
    hide Replay, Lawful;
    RulesAreLawful();
    assert [B1][..0] == [] && [B1][0..] == [B1];
    assert B1 in [B1];
  }
}
