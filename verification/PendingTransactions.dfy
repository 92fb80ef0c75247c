/** How transactions return to the pending queue once a block has been pushed: first those of popped
    blocks, then those that were pending before. */
module PendingTransactions {
  import opened Blocks
  import opened Wrappers

  type State = int

  /** What applying a transaction does to a state; a pair that is not there is a transaction that fails. */
  type Effects = imap<(State, Transaction), State>

  /** The transactions that a state knows already. */
  type Known = iset<(State, Transaction)>

  function Fate(effects: Effects, known: Known, s: State, tx: Transaction): Option<State> {
    if (s, tx) !in known && (s, tx) in effects then Some(effects[(s, tx)]) else None
  }

  /** The queue that txs leave, and the state: until `patience` of them have been looked at, those that are
      new and apply, and then all. */
  ghost function Queue(effects: Effects, known: Known, s: State, txs: seq<Transaction>, patience: nat): seq<Transaction>
    decreases |txs|
  {
    if txs == [] then []
    else
      var rest, last := txs[..|txs| - 1], txs[|txs| - 1];
      Queue(effects, known, s, rest, patience)
      + if |rest| >= patience || Fate(effects, known, After(effects, known, s, rest, patience), last).Some? then [last] else []
  }

  ghost function After(effects: Effects, known: Known, s: State, txs: seq<Transaction>, patience: nat): State
    decreases |txs|
  {
    if txs == [] then s
    else
      var rest, last := txs[..|txs| - 1], txs[|txs| - 1];
      var t := After(effects, known, s, rest, patience);
      if |rest| >= patience then t else
        match Fate(effects, known, t, last)
        case None => t
        case Some(u) => u
  }

  ghost predicate Subsequence(xs: seq<Transaction>, ys: seq<Transaction>)
    decreases |ys|
  {
    if ys == [] then xs == [] else
      var n := |ys| - 1;
      Subsequence(xs, ys[..n]) || (xs != [] && xs[|xs| - 1] == ys[n] && Subsequence(xs[..|xs| - 1], ys[..n]))
  }

  /** Transaction k was looked at in time and was known or failed when its turn came. */
  ghost predicate Culled(effects: Effects, known: Known, s: State, txs: seq<Transaction>, patience: nat, k: nat)
    requires k < |txs|
  {
    k < patience && Fate(effects, known, After(effects, known, s, txs[..k], patience), txs[k]).None?
  }

  /** What culls a transaction: the state that those before it lead to knows it, or it fails there. */
  lemma {:induction false} CulledIf(effects: Effects, known: Known, s: State, txs: seq<Transaction>, patience: nat,
                                    k: nat)
    requires k < |txs|
    ensures var t := After(effects, known, s, txs[..k], patience);
            && (Culled(effects, known, s, txs, patience, k) <==>
                  k < patience && ((t, txs[k]) in known || (t, txs[k]) !in effects))
            && After(effects, known, s, txs[..k + 1], patience)
               == if k < patience && !Culled(effects, known, s, txs, patience, k) then effects[(t, txs[k])] else t
  {
    assert txs[..k + 1][..k] == txs[..k];
  }

  lemma {:induction false} QueueStep(effects: Effects, known: Known, s: State, txs: seq<Transaction>, patience: nat)
    requires txs != []
    ensures var n := |txs| - 1;
            Queue(effects, known, s, txs, patience) == Queue(effects, known, s, txs[..n], patience)
              + if Culled(effects, known, s, txs, patience, n) then [] else [txs[n]]
    ensures forall k :: 0 <= k < |txs| - 1 ==>
              Culled(effects, known, s, txs[..|txs| - 1], patience, k) == Culled(effects, known, s, txs, patience, k)
  {
    hide After, Fate;
    var n := |txs| - 1;
    forall k | 0 <= k < n
      ensures Culled(effects, known, s, txs[..n], patience, k) == Culled(effects, known, s, txs, patience, k)
    {
      assert txs[..n][..k] == txs[..k];
    }
  }

  /** The queue keeps the order, and a transaction that is culled is the only kind that is missing. */
  lemma {:induction false} QueueKeepsOrder(effects: Effects, known: Known, s: State, txs: seq<Transaction>,
                                           patience: nat)
    ensures Subsequence(Queue(effects, known, s, txs, patience), txs)
    ensures forall k :: 0 <= k < |txs| && !Culled(effects, known, s, txs, patience, k) ==>
              txs[k] in Queue(effects, known, s, txs, patience)
  {
    if txs != [] {
      var n := |txs| - 1;
      QueueKeepsOrder(effects, known, s, txs[..n], patience);
      QueueStep(effects, known, s, txs, patience);
      hide Queue, Culled;
      var q := Queue(effects, known, s, txs[..n], patience);
      assert (q + [txs[n]])[..|q|] == q && q + [] == q;
      assert forall k :: 0 <= k < n ==> txs[..n][k] == txs[k];
    }
  }

  /** Nothing is lost or reordered exactly when nothing is culled. */
  lemma {:induction false} AllRequeued(effects: Effects, known: Known, s: State, txs: seq<Transaction>, patience: nat)
    ensures |Queue(effects, known, s, txs, patience)| <= |txs|
    ensures Queue(effects, known, s, txs, patience) == txs <==>
      (forall k :: 0 <= k < |txs| ==> !Culled(effects, known, s, txs, patience, k))
  {
    if txs != [] {
      var n := |txs| - 1;
      AllRequeued(effects, known, s, txs[..n], patience);
      QueueStep(effects, known, s, txs, patience);
      hide Queue, Culled;
      var q := Queue(effects, known, s, txs[..n], patience);
      assert txs == txs[..n] + [txs[n]];
      if !Culled(effects, known, s, txs, patience, n) {
        assert (q + [txs[n]])[..|q|] == q;
        assert q + [txs[n]] == txs ==> q == txs[..n];
        assert forall k :: 0 <= k < n && Culled(effects, known, s, txs[..n], patience, k) ==>
          Culled(effects, known, s, txs, patience, k);
      }
    }
  }

  lemma {:induction false} Nothing(effects: Effects, known: Known, s: State, patience: nat)
    ensures Queue(effects, known, s, [], patience) == [] && After(effects, known, s, [], patience) == s
  {
  }

  /** What transaction i adds to the queue and does to the state. */
  lemma {:induction false} Next(effects: Effects, known: Known, s: State, all: seq<Transaction>, i: nat,
                                patience: nat)
    requires i < |all|
    ensures var t := After(effects, known, s, all[..i], patience); var fate := Fate(effects, known, t, all[i]);
            && Queue(effects, known, s, all[..i + 1], patience) ==
               Queue(effects, known, s, all[..i], patience) + (if i >= patience || fate.Some? then [all[i]] else [])
            && After(effects, known, s, all[..i + 1], patience) == if i < patience && fate.Some? then fate.value else t
  {
    hide Fate;
    assert all[..i + 1][..i] == all[..i];
  }

  class PendingQueue {
    const effects: Effects
    const known: Known
    var state: State
    var pending: seq<Transaction>
    var popped: seq<Transaction>

    constructor (effects: Effects, known: Known, state: State)
      ensures this.effects == effects && this.known == known && this.state == state
      ensures pending == [] && popped == []
    {
      this.effects, this.known, this.state, pending, popped := effects, known, state, [], [];
    }

    /** Applies one transaction and queues it, or only queues it when it is too late to apply it. */
    method Restore(tx: Transaction, inTime: bool)
      modifies `state, `pending
      ensures pending == old(pending) + if !inTime || Fate(effects, known, old(state), tx).Some? then [tx] else []
      ensures state ==
        if inTime && Fate(effects, known, old(state), tx).Some? then Fate(effects, known, old(state), tx).value
        else old(state)
      ensures pending == old(pending) +
        if !inTime || ((old(state), tx) !in known && (old(state), tx) in effects) then [tx] else []
      ensures state == if inTime && (old(state), tx) !in known && (old(state), tx) in effects
                       then effects[(old(state), tx)] else old(state)
    {
      if inTime {
        match Fate(effects, known, state, tx)
        case None =>
        case Some(next) =>
          state := next;
          pending := pending + [tx];
      } else {
        pending := pending + [tx];
      }
    }

    /** Refills the queue from popped and formerly pending transactions; time runs out after `patience`. */
    method RestorePending(saved: seq<Transaction>, patience: nat)
      requires pending == []
      modifies `state, `pending, `popped
      ensures popped == []
      ensures pending == Queue(effects, known, old(state), old(popped) + saved, patience)
      ensures state == After(effects, known, old(state), old(popped) + saved, patience)
    {
      hide Queue, After, Fate;
      ghost var all := popped + saved;
      Nothing(effects, known, state, patience);
      assert all[..0] == [];
      var i := 0;
      while i < |popped|
        invariant i <= |popped| && popped == old(popped)
        invariant pending == Queue(effects, known, old(state), all[..i], patience)
        invariant state == After(effects, known, old(state), all[..i], patience)
      {
        Next(effects, known, old(state), all, i, patience);
        Restore(popped[i], i < patience);
        i := i + 1;
      }
      var n := |popped|;
      popped := [];
      var j := 0;
      while j < |saved|
        invariant j <= |saved| && popped == []
        invariant pending == Queue(effects, known, old(state), all[..n + j], patience)
        invariant state == After(effects, known, old(state), all[..n + j], patience)
      {
        Next(effects, known, old(state), all, n + j, patience);
        Restore(saved[j], n + j < patience);
        j := j + 1;
      }
      assert all[..n + j] == all;
    }
  }
}
