/** A small ledger on which claims and withdrawals do not do what their callers would expect: account 1 lends its 5 Qi
    to account 2, which has 7 of its own and adores siming 9. */
module AdorationExamples {
  import opened Entities
  import opened Wrappers
  import opened MapSums
  import opened ProxyGraph
  import opened Adoration
  import opened AdorationLedger

  const PROXIES: Graph := map[1 := Some(2), 2 := None]
  const QI: map<Name, int> := map[1 := 5, 2 := 7]
  const SLOTS: SlotTable := map[1 := [0, 0, 0, 0], 2 := [5, 0, 0, 0]]
  const RECORDS: Records := {(2, 9)}
  const ADORES: map<Name, int> := map[9 := 12]

  lemma {:induction false} AboveOne(x: Name, k: nat)
    requires k >= 1
    ensures Anc(PROXIES, x, k) == if x == 1 && k == 1 then Some(2) else None
  {
    if k >= 2 && x == 1 {
      assert Anc(PROXIES, 2, k - 1) == None;
    }
  }

  lemma {:induction false} LentTo(x: Name, k: nat)
    requires k >= 1
    ensures HopSum(PROXIES, QI, x, k) == if x == 2 && k == 1 then 5 else 0
  {
    hide Anc, Sum;
    var terms := HopTerms(PROXIES, QI, x, k);
    AboveOne(1, k);
    AboveOne(2, k);
    assert terms.Keys == {1, 2};
    if x == 2 && k == 1 {
      SumSingle(terms, 1);
    } else {
      SumZero(terms);
    }
  }

  lemma {:induction false} BooksAreExact()
    ensures Consistent(PROXIES, QI, SLOTS, RECORDS, ADORES) && Backed(QI, 12)
  {
    hide Anc, Sum, HopSum;
    forall x, k: nat | k > 0 && x in PROXIES
      ensures Anc(PROXIES, x, k) != Some(x)
    {
      AboveOne(x, k);
    }
    forall x | x in SLOTS
      ensures SlotsFor(PROXIES, QI, SLOTS[x], x)
    {
      LentTo(x, 1);
      LentTo(x, 2);
      LentTo(x, 3);
      LentTo(x, 4);
    }
    SumSingle(AdoreTerms(PROXIES, QI, SLOTS, RECORDS, 9), 2);
    SumRemove(QI, 1);
    SumSingle(QI - {1}, 2);
  }

  /** With enough Qi elsewhere, account 1 claims 1 Feigang. The books were exact and are not afterwards. */
  lemma {:induction false} ClaimExample()
    ensures var root := RootWithin(PROXIES, 1, 4);
            && Consistent(PROXIES, QI, SLOTS, RECORDS, ADORES) && Backed(QI, 100)
            && Room(RECORDS, ADORES, root, 1, 100)
            && !Consistent(PROXIES, QI[1 := 6], Bumped(PROXIES, Bumped(PROXIES, SLOTS, 1, 1, 0), 1, 1, 0), RECORDS,
                           Credited(RECORDS, Credited(RECORDS, ADORES, root, 1), root, 1))
  {
    hide Consistent, Sum, Bumped, Credited, Anc;
    BooksAreExact();
    ClaimConsistent(PROXIES, QI, SLOTS, RECORDS, ADORES, 1, 0, 1);
  }

  /** With no Qi elsewhere, siming 9 is adored with all there is. Account 1 can claim no Feigang, and its
      withdrawal of 5 Qi, routed to account 2 as Qi, makes the block that carries it out fail. */
  lemma {:induction false} FullAdorationExample()
    ensures Consistent(PROXIES, QI, SLOTS, RECORDS, ADORES) && Backed(QI, 12)
    ensures !Room(RECORDS, ADORES, RootWithin(PROXIES, 1, 4), 1, 12)
    ensures !AllArrive(PROXIES, RECORDS, ADORES, [(2, 5)], 12)
  {
    hide Consistent, Sum;
    BooksAreExact();
    assert RootWithin(PROXIES, 1, 4) == Some(2);
    var deposits: seq<(Name, nat)> := [(2, 5)];
    assert deposits[..0] == [];
    assert Arriving(PROXIES, RECORDS, deposits, 9) == 5;
  }
}
