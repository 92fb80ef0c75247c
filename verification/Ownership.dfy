/** Transferring an NFA hands over everything it contains, whatever the parent links look like. */
module Ownership {
  import opened Entities
  import opened Wrappers
  import opened Sets

  /** The NFA that contains each one; an id that names no NFA is no parent. */
  type Parents = map<NfaId, NfaId>

  /** The k-th container of n, going outwards. */
  ghost function Container(parent: Parents, n: NfaId, k: nat): Option<NfaId>
    decreases k
  {
    if k == 0 then Some(n)
    else if n !in parent then None
    else Container(parent, parent[n], k - 1)
  }

  /** n is inside root, at some depth. */
  ghost predicate Inside(parent: Parents, n: NfaId, root: NfaId) {
    exists k: nat :: k >= 1 && n in parent && Container(parent, n, k) == Some(root)
  }

  ghost predicate Children(parent: Parents, root: NfaId, done: set<NfaId>) {
    forall c :: c in parent && parent[c] == root ==> c in done
  }

  lemma {:induction false} ChildInside(parent: Parents, c: NfaId, root: NfaId)
    requires c in parent && parent[c] == root
    ensures Inside(parent, c, root)
  {
    assert Container(parent, root, 0) == Some(root);
    assert Container(parent, c, 1) == Some(root);
  }

  /** What is inside a child is inside its parent. */
  lemma {:induction false} InsideChild(parent: Parents, n: NfaId, c: NfaId, root: NfaId)
    requires Inside(parent, n, c) && c in parent && parent[c] == root
    ensures Inside(parent, n, root)
  {
    var k: nat :| k >= 1 && Container(parent, n, k) == Some(c);
    OneFurther(parent, n, k);
  }

  lemma {:induction false} OneFurther(parent: Parents, n: NfaId, k: nat)
    requires Container(parent, n, k).Some? && Container(parent, n, k).value in parent
    ensures Container(parent, n, k + 1) == Some(parent[Container(parent, n, k).value])
    decreases k
  {
    if k > 0 {
      OneFurther(parent, parent[n], k - 1);
    }
  }

  /** A set that has the children of root and of each of its members has everything inside root. */
  lemma {:induction false} ClosedHasAll(parent: Parents, root: NfaId, done: set<NfaId>, n: NfaId, k: nat)
    requires Children(parent, root, done) && forall x :: x in done ==> Children(parent, x, done)
    requires k >= 1 && n in parent && Container(parent, n, k) == Some(root)
    ensures n in done
    decreases k
  {
    if k == 1 {
      assert Container(parent, parent[n], 0) == Some(parent[n]);
    } else {
      assert parent[n] in parent;
      ClosedHasAll(parent, root, done, parent[n], k - 1);
      assert Children(parent, parent[n], done);
    }
  }

  /** NFA 2 in NFA 1, which is in no other: a transfer of 1 takes 2 along, even if 2 is soul-bound. */
  lemma {:induction false} TakenAlongExample()
    ensures var parent := map[1 := 0, 2 := 1]; parent[1] !in parent && Inside(parent, 2, 1) && !Inside(parent, 1, 1)
  {
    var parent := map[1 := 0, 2 := 1];
    ChildInside(parent, 2, 1);
    forall k: nat | k >= 1
      ensures Container(parent, 1, k) != Some(1)
    {
      assert Container(parent, 1, k) == Container(parent, 0, k - 1);
    }
  }

  class Nfas {
    const parent: Parents
    const soulBound: set<NfaId>
    var owner: map<NfaId, AccountId>

    ghost predicate Valid()
      reads this
    {
      owner.Keys == parent.Keys
    }

    constructor (parent: Parents, soulBound: set<NfaId>, owner: map<NfaId, AccountId>)
      requires owner.Keys == parent.Keys
      ensures Valid() && this.parent == parent && this.soulBound == soulBound && this.owner == owner
    {
      this.parent, this.soulBound, this.owner := parent, soulBound, owner;
    }

    /** Gives what is inside an NFA to a new owner, except what has been given before. */
    method ModifyChildrenOwner(nfa: NfaId, newOwner: AccountId, visited: set<NfaId>) returns (seen: set<NfaId>)
      requires Valid()
      modifies `owner
      ensures Valid() && visited <= seen && seen - visited <= parent.Keys
      ensures forall x :: x in seen && x !in visited ==> Inside(parent, x, nfa)
      ensures Children(parent, nfa, seen) && forall x :: x in seen && x !in visited ==> Children(parent, x, seen)
      ensures forall x :: x in owner ==> owner[x] == if x in seen && x !in visited then newOwner else old(owner)[x]
      decreases parent.Keys - visited
    {
      var children := set c | c in parent && parent[c] == nfa;
      seen := visited;
      while children != {}
        invariant Valid() && visited <= seen && seen - visited <= parent.Keys
        invariant forall c :: c in children ==> c in parent && parent[c] == nfa
        invariant forall c :: c in parent && parent[c] == nfa ==> c in children || c in seen
        invariant forall x :: x in seen && x !in visited ==> Inside(parent, x, nfa)
        invariant forall x :: x in seen && x !in visited ==> Children(parent, x, seen)
        invariant forall x :: x in owner ==> owner[x] == if x in seen && x !in visited then newOwner else old(owner)[x]
        decreases children
      {
        ghost var w := Member(children);
        var c :| c in children;
        children := children - {c};
        if c !in seen {
          ghost var before := seen;
          owner := owner[c := newOwner];
          ChildInside(parent, c, nfa);
          assert c in (parent.Keys - visited) - (parent.Keys - (before + {c}));
          seen := ModifyChildrenOwner(c, newOwner, seen + {c});
          forall x | x in seen && x !in before
            ensures Inside(parent, x, nfa)
          {
            if x != c {
              InsideChild(parent, x, c, nfa);
            }
          }
        }
      }
    }

    /** Only an NFA that is in no other and not soul-bound can be transferred, by its owner to someone else. It
        changes its owner with everything inside it, soul-bound or not, and nothing else does. */
    method Transfer(from: AccountId, to: AccountId, nfa: NfaId) returns (ok: bool)
      requires Valid()
      modifies `owner
      ensures Valid()
      ensures ok <==> from != to && nfa in parent && nfa !in soulBound && parent[nfa] !in parent && old(owner)[nfa] == from
      ensures !ok ==> owner == old(owner)
      ensures ok ==> forall x :: x in owner ==>
                owner[x] == if x == nfa || Inside(parent, x, nfa) then to else old(owner)[x]
    {
      if from == to || nfa !in parent || nfa in soulBound || parent[nfa] in parent || owner[nfa] != from {
        return false;
      }
      owner := owner[nfa := to];
      PropagateOwner(nfa, to);
      return true;
    }

    /** The propagation alone. */
    method PropagateOwner(nfa: NfaId, newOwner: AccountId)
      requires Valid()
      modifies `owner
      ensures Valid()
      ensures forall x :: x in owner ==> owner[x] == if Inside(parent, x, nfa) then newOwner else old(owner)[x]
    {
      var seen := ModifyChildrenOwner(nfa, newOwner, {});
      forall x | x in parent && Inside(parent, x, nfa)
        ensures x in seen
      {
        var k: nat :| k >= 1 && Container(parent, x, k) == Some(nfa);
        ClosedHasAll(parent, nfa, seen, x, k);
      }
    }
  }
}
