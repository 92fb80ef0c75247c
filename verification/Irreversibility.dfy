/** When a block becomes irreversible: enough of the scheduled simings have built on it. */
module Irreversibility {
  import opened Entities
  import opened Percent
  import opened Sets

  const START_ADORING_BLOCK := 864000
  const THRESHOLD := 7500

  /** How many of n scheduled simings may lag behind. */
  function Offset(n: nat): nat {
    (HUNDRED_PERCENT - THRESHOLD) * n / HUNDRED_PERCENT
  }

  /** The scheduled simings whose latest block is at height h or above. */
  ghost function Confirming(scheduled: seq<Name>, confirmed: map<Name, int>, h: int): set<Name> {
    set x | x in scheduled && x in confirmed && confirmed[x] >= h
  }

  /** Enough of the schedule has built on height h. */
  ghost predicate Quorum(scheduled: seq<Name>, confirmed: map<Name, int>, h: int) {
    |Confirming(scheduled, confirmed, h)| >= |scheduled| - Offset(|scheduled|)
  }

  /** A quorum is all but a quarter of the schedule, the quarter rounded down. */
  lemma {:induction false} QuorumIs(scheduled: seq<Name>, confirmed: map<Name, int>, h: int)
    ensures Quorum(scheduled, confirmed, h) <==>
      |set x | x in scheduled && x in confirmed && confirmed[x] >= h| >= |scheduled| - |scheduled| / 4
  {
    assert Confirming(scheduled, confirmed, h) == set x | x in scheduled && x in confirmed && confirmed[x] >= h;
  }

  /** Each of the names has a latest block. */
  ghost predicate Tracked(s: seq<Name>, confirmed: map<Name, int>) {
    forall i :: 0 <= i < |s| ==> s[i] in confirmed
  }

  ghost predicate OrderedAt(s: seq<Name>, confirmed: map<Name, int>, k: nat)
    requires k < |s| && Tracked(s, confirmed)
  {
    && (forall i :: 0 <= i < k ==> confirmed[s[i]] <= confirmed[s[k]])
    && forall i :: k < i < |s| ==> confirmed[s[k]] <= confirmed[s[i]]
  }

  ghost predicate Sorted(s: seq<Name>, confirmed: map<Name, int>)
    requires Tracked(s, confirmed)
  {
    forall i, j :: 0 <= i < j < |s| ==> confirmed[s[i]] <= confirmed[s[j]]
  }

  function Inserted(s: seq<Name>, x: Name, i: nat): (r: seq<Name>)
    requires i <= |s|
    ensures |r| == |s| + 1
    ensures forall j :: 0 <= j < |r| ==> r[j] == if j < i then s[j] else if j == i then x else s[j - 1]
  {
    s[..i] + [x] + s[i..]
  }

  lemma {:induction false} InsertedMembers(s: seq<Name>, x: Name, i: nat)
    requires i <= |s| && x !in s && Distinct(s)
    ensures Distinct(Inserted(s, x, i)) && Elements(Inserted(s, x, i)) == Elements(s) + {x}
  {
    var r := Inserted(s, x, i);
    forall y
      ensures y in r <==> y in s || y == x
    {
      if y in s {
        var j :| 0 <= j < |s| && y == s[j];
        assert r[if j < i then j else j + 1] == y;
      }
      assert r[i] == x;
    }
  }

  lemma {:induction false} InsertedSorted(s: seq<Name>, confirmed: map<Name, int>, x: Name, i: nat)
    requires i <= |s| && x in confirmed && Tracked(s, confirmed) && Sorted(s, confirmed)
    requires forall j :: 0 <= j < i ==> confirmed[s[j]] <= confirmed[x]
    requires i < |s| ==> confirmed[x] <= confirmed[s[i]]
    ensures Tracked(Inserted(s, x, i), confirmed) && Sorted(Inserted(s, x, i), confirmed)
  {
    assert forall j :: i <= j < |s| ==> confirmed[x] <= confirmed[s[j]];
  }

  /** x goes where it keeps s sorted. */
  method Insert(s: seq<Name>, confirmed: map<Name, int>, x: Name) returns (r: seq<Name>)
    requires x in confirmed && x !in s && Distinct(s) && Tracked(s, confirmed) && Sorted(s, confirmed)
    ensures |r| == |s| + 1 && Distinct(r) && Elements(r) == Elements(s) + {x}
    ensures Tracked(r, confirmed) && Sorted(r, confirmed)
  {
    hide Distinct, Elements;
    var i := 0;
    while i < |s| && confirmed[s[i]] < confirmed[x]
      invariant 0 <= i <= |s|
      invariant forall j :: 0 <= j < i ==> confirmed[s[j]] < confirmed[x]
    {
      i := i + 1;
    }
    r := Inserted(s, x, i);
    InsertedMembers(s, x, i);
    InsertedSorted(s, confirmed, x, i);
  }

  /** Rearranges the names so that the one at position k is where sorting would put it. */
  method NthElement(names: seq<Name>, confirmed: map<Name, int>, k: nat) returns (r: seq<Name>)
    requires k < |names| && Distinct(names) && Tracked(names, confirmed)
    ensures |r| == |names| && Distinct(r) && Elements(r) == Elements(names)
    ensures Tracked(r, confirmed) && OrderedAt(r, confirmed, k)
  {
    r := [];
    var i := 0;
    while i < |names|
      invariant 0 <= i <= |names| == |names| && |r| == i && Distinct(r) && Elements(r) == Elements(names[..i])
      invariant Tracked(r, confirmed) && Sorted(r, confirmed)
    {
      assert names[i] !in Elements(names[..i]);
      assert Elements(names[..i + 1]) == Elements(names[..i]) + {names[i]};
      r := Insert(r, confirmed, names[i]);
      assert forall x :: x in r ==> x in Elements(r);
      i := i + 1;
    }
    assert names[..i] == names;
  }

  /** The height of the siming at the offset is the highest one that a quorum has built on. */
  lemma {:induction false} OffsetIsHighestQuorum(scheduled: seq<Name>, confirmed: map<Name, int>, r: seq<Name>,
                                                 h: int)
    requires scheduled != [] && Distinct(scheduled) && Distinct(r) && Elements(r) == Elements(scheduled)
    requires |r| == |scheduled| && Tracked(r, confirmed)
    requires OrderedAt(r, confirmed, Offset(|scheduled|))
    ensures Quorum(scheduled, confirmed, h) <==> h <= confirmed[r[Offset(|scheduled|)]]
  {
    var n, k := |scheduled|, Offset(|scheduled|);
    var yes := Confirming(scheduled, confirmed, h);
    assert forall x :: x in r <==> x in Elements(scheduled);
    if h <= confirmed[r[k]] {
      DistinctCount(r[k..]);
      forall x | x in r[k..]
        ensures x in yes
      {
        var i :| 0 <= i < n - k && x == r[k..][i];
        assert x == r[k + i] && x in r;
      }
      SubsetCount(Elements(r[k..]), yes);
    } else {
      DistinctCount(r[k + 1..]);
      forall x | x in yes
        ensures x in Elements(r[k + 1..])
      {
        assert x in Elements(scheduled);
        var i :| 0 <= i < n && x == r[i];
        assert i > k && x == r[k + 1..][i - k - 1];
      }
      SubsetCount(yes, Elements(r[k + 1..]));
    }
  }

  /** Two quorums of one schedule share at least half of it. */
  lemma {:induction false} QuorumsMeet(scheduled: seq<Name>, a: set<Name>, b: set<Name>)
    requires Distinct(scheduled) && a <= Elements(scheduled) && b <= Elements(scheduled)
    requires |a| >= |scheduled| - Offset(|scheduled|) && |b| >= |scheduled| - Offset(|scheduled|)
    ensures 2 * |a * b| >= |scheduled|
  {
    DistinctCount(scheduled);
    SubsetCount(a + b, Elements(scheduled));
    assert |a + b| == |a| + |b| - |a * b|;
  }

  /** A fixed distance below the head until adoring has started; never above the head. */
  predicate LibFits(head: nat, lib: nat) {
    lib <= head && (head < START_ADORING_BLOCK ==> lib == if head > MAX_SIMINGS then head - MAX_SIMINGS else 0)
  }

  /** How the irreversible height follows a new head: at the fixed distance or, once adoring has started, up
      to the highest height that a quorum has built on, and never down. */
  ghost predicate LibFollows(head: nat, lib: nat, next: nat, scheduled: seq<Name>, confirmed: map<Name, int>) {
    if head < START_ADORING_BLOCK then next == if head > MAX_SIMINGS then head - MAX_SIMINGS else lib
    else
      && lib <= next && (lib < next ==> Quorum(scheduled, confirmed, next))
      && forall h :: h > next ==> !Quorum(scheduled, confirmed, h)
  }

  /** Nobody has confirmed a height above the head, so the irreversible one stays below it. */
  lemma {:induction false} LibBounds(head: nat, lib: nat, next: nat, scheduled: seq<Name>, confirmed: map<Name, int>)
    requires 1 <= head && LibFits(head - 1, lib) && LibFollows(head, lib, next, scheduled, confirmed)
    requires scheduled != [] && forall x :: x in confirmed ==> 0 <= confirmed[x] <= head
    ensures lib <= next <= head && LibFits(head, next)
  {
    hide Quorum;
    if next > head {
      NobodyAbove(scheduled, confirmed, next, head);
    }
  }

  class Confirmations {
    var head: nat
    var lib: nat
    var scheduled: seq<Name>
    var confirmed: map<Name, int>

    ghost predicate Valid()
      reads this
    {
      && scheduled != [] && Distinct(scheduled) && Tracked(scheduled, confirmed)
      && (forall x :: x in confirmed ==> 0 <= confirmed[x] <= head)
      && LibFits(head, lib)
    }

    constructor (scheduled: seq<Name>, simings: set<Name>)
      requires scheduled != [] && Distinct(scheduled) && forall x :: x in scheduled ==> x in simings
      ensures Valid() && head == 0
    {
      head, lib, this.scheduled := 0, 0, scheduled;
      confirmed := map x | x in simings :: 0;
    }

    /** A new siming has confirmed nothing yet. */
    method AddSiming(name: Name)
      requires Valid() && name !in confirmed
      modifies `confirmed
      ensures Valid() && confirmed == old(confirmed)[name := 0]
    {
      confirmed := confirmed[name := 0];
    }

    /** The schedule changes between rounds. */
    method Reschedule(next: seq<Name>)
      requires Valid() && next != [] && Distinct(next) && Tracked(next, confirmed)
      modifies `scheduled
      ensures Valid() && scheduled == next
    {
      scheduled := next;
    }

    /** Late simings are left out; once adoring has started the irreversible height never goes down, and a
        new one is the highest that a quorum has built on. */
    method UpdateLastIrreversibleBlock()
      requires scheduled != [] && Distinct(scheduled) && Tracked(scheduled, confirmed)
      modifies `lib
      ensures LibFollows(head, old(lib), lib, scheduled, confirmed)
      ensures head < START_ADORING_BLOCK ==> lib == if head > MAX_SIMINGS then head - MAX_SIMINGS else old(lib)
      ensures head >= START_ADORING_BLOCK ==> (
        && old(lib) <= lib && (old(lib) < lib ==> Quorum(scheduled, confirmed, lib))
        && forall h :: h > lib ==> !Quorum(scheduled, confirmed, h))
    {
      if head < START_ADORING_BLOCK {
        if head > MAX_SIMINGS {
          lib := head - MAX_SIMINGS;
        }
      } else {
        var offset := Offset(|scheduled|);
        var sorted := NthElement(scheduled, confirmed, offset);
        forall h
          ensures Quorum(scheduled, confirmed, h) <==> h <= confirmed[sorted[offset]]
        {
          OffsetIsHighestQuorum(scheduled, confirmed, sorted, h);
        }
        if confirmed[sorted[offset]] > lib {
          lib := confirmed[sorted[offset]];
        }
      }
    }

    /** The signer of a new block confirms it; then the irreversible height follows. */
    method ApplyBlock(signer: Name)
      requires Valid() && signer in confirmed
      modifies `head, `lib, `confirmed
      ensures Valid() && head == old(head) + 1 && confirmed == old(confirmed)[signer := head]
      ensures old(lib) <= lib <= head && LibFollows(head, old(lib), lib, scheduled, confirmed)
      ensures head < START_ADORING_BLOCK ==> lib == if head > MAX_SIMINGS then head - MAX_SIMINGS else 0
      ensures head >= START_ADORING_BLOCK ==> (
        && old(lib) <= lib && (old(lib) < lib ==> Quorum(scheduled, confirmed, lib))
        && forall h :: h > lib ==> !Quorum(scheduled, confirmed, h))
    {
      head := head + 1;
      confirmed := confirmed[signer := head];
      UpdateLastIrreversibleBlock();
      LibBounds(head, old(lib), lib, scheduled, confirmed);
    }
  }

  lemma {:induction false} NobodyAbove(scheduled: seq<Name>, confirmed: map<Name, int>, h: int, head: nat)
    requires scheduled != [] && (forall x :: x in confirmed ==> 0 <= confirmed[x] <= head) && h > head
    ensures !Quorum(scheduled, confirmed, h)
  {
    var yes := Confirming(scheduled, confirmed, h);
    if yes != {} {
      var x := Member(yes);
      assert false;
    }
  }
}
