/** Removing expired proposals and their votes, a bounded number of objects at a time. */
module ProposalRemoval {

  type ProposalId = int
  type Voter = int

  datatype Proposal = Proposal(id: ProposalId, endDate: int)

  /** The voters of each proposal, in order. */
  type Votes = map<ProposalId, seq<Voter>>

  function Int16(x: int): int {
    (x + 0x8000) % 0x1_0000 - 0x8000
  }

  /** Whether a threshold bounds a call: a negative one does not, nor does one that the counter never
      exceeds before it wraps. */
  predicate Limited(threshold: int) {
    0 <= threshold < 0x7FFF
  }

  function VotesOf(votes: Votes, id: ProposalId): seq<Voter> {
    if id in votes then votes[id] else []
  }

  /** Proposals by end date, no id twice, and a vote only for a proposal that is there. */
  ghost predicate Ordered(proposals: seq<Proposal>) {
    && (forall i, j :: 0 <= i < j < |proposals| ==> proposals[i].endDate <= proposals[j].endDate)
    && forall i, j :: 0 <= i < j < |proposals| ==> proposals[i].id != proposals[j].id
  }

  ghost predicate NoOrphans(proposals: seq<Proposal>, votes: Votes) {
    forall id :: id in votes && votes[id] != [] ==> exists p :: p in proposals && p.id == id
  }

  predicate Expired(proposals: seq<Proposal>, now: int) {
    proposals != [] && proposals[0].endDate <= now
  }

  /** What is left after erasing one object: the first vote of the first proposal, or else the proposal. */
  function OneFewerProposals(proposals: seq<Proposal>, votes: Votes): seq<Proposal>
    requires proposals != []
  {
    if VotesOf(votes, proposals[0].id) != [] then proposals else proposals[1..]
  }

  function OneFewerVotes(proposals: seq<Proposal>, votes: Votes): Votes
    requires proposals != []
  {
    var id := proposals[0].id;
    if VotesOf(votes, id) != [] then votes[id := votes[id][1..]] else votes
  }

  /** How many objects there are to erase. */
  ghost function Pending(proposals: seq<Proposal>, votes: Votes, now: int): nat {
    if !Expired(proposals, now) then 0
    else |VotesOf(votes, proposals[0].id)| + 1 + Pending(proposals[1..], votes, now)
  }

  /** The objects in the order in which they are erased: k of them gone. */
  ghost function ProposalsAfter(proposals: seq<Proposal>, votes: Votes, now: int, k: nat): seq<Proposal> {
    if k == 0 || !Expired(proposals, now) then proposals
    else ProposalsAfter(OneFewerProposals(proposals, votes), OneFewerVotes(proposals, votes), now, k - 1)
  }

  ghost function VotesAfter(proposals: seq<Proposal>, votes: Votes, now: int, k: nat): Votes {
    if k == 0 || !Expired(proposals, now) then votes
    else VotesAfter(OneFewerProposals(proposals, votes), OneFewerVotes(proposals, votes), now, k - 1)
  }

  lemma {:induction false} PendingElsewhere(proposals: seq<Proposal>, votes: Votes, votes': Votes, now: int)
    requires forall p :: p in proposals ==> VotesOf(votes, p.id) == VotesOf(votes', p.id)
    ensures Pending(proposals, votes, now) == Pending(proposals, votes', now)
  {
    if Expired(proposals, now) {
      PendingElsewhere(proposals[1..], votes, votes', now);
    }
  }

  /** Erasing one object leaves one fewer to erase, and the order and the votes' proposals intact. */
  lemma {:induction false} OneStep(proposals: seq<Proposal>, votes: Votes, now: int)
    requires Ordered(proposals) && Expired(proposals, now)
    ensures Ordered(OneFewerProposals(proposals, votes))
    ensures NoOrphans(proposals, votes) ==>
      NoOrphans(OneFewerProposals(proposals, votes), OneFewerVotes(proposals, votes))
    ensures Pending(OneFewerProposals(proposals, votes), OneFewerVotes(proposals, votes), now) + 1
      == Pending(proposals, votes, now)
  {
    var id, votes' := proposals[0].id, OneFewerVotes(proposals, votes);
    if VotesOf(votes, id) != [] {
      forall p | p in proposals[1..]
        ensures VotesOf(votes, p.id) == VotesOf(votes', p.id)
      {
        var i :| 1 <= i < |proposals| && p == proposals[i];
      }
      PendingElsewhere(proposals[1..], votes, votes', now);
    } else if NoOrphans(proposals, votes) {
      forall x | x in votes && votes[x] != []
        ensures exists p :: p in proposals[1..] && p.id == x
      {
        var p :| p in proposals && p.id == x;
        var i :| 0 <= i < |proposals| && p == proposals[i];
        assert i > 0 && p == proposals[1..][i - 1];
      }
    }
  }

  /** Erasing in two goes is erasing in one. */
  lemma {:induction false} Resumed(proposals: seq<Proposal>, votes: Votes, now: int, a: nat, b: nat)
    requires Ordered(proposals)
    ensures var ps, vs := ProposalsAfter(proposals, votes, now, a), VotesAfter(proposals, votes, now, a);
            && ProposalsAfter(ps, vs, now, b) == ProposalsAfter(proposals, votes, now, a + b)
            && VotesAfter(ps, vs, now, b) == VotesAfter(proposals, votes, now, a + b)
            && Ordered(ps) && (NoOrphans(proposals, votes) ==> NoOrphans(ps, vs))
            && Pending(ps, vs, now) == if a < Pending(proposals, votes, now) then Pending(proposals, votes, now) - a else 0
    decreases a
  {
    hide Ordered, NoOrphans, OneFewerProposals, OneFewerVotes;
    if a > 0 && Expired(proposals, now) {
      OneStep(proposals, votes, now);
      Resumed(OneFewerProposals(proposals, votes), OneFewerVotes(proposals, votes), now, a - 1, b);
    } else if !Expired(proposals, now) {
      assert ProposalsAfter(proposals, votes, now, a + b) == proposals;
    }
  }

  /** Nothing more happens once nothing is pending, and then no expired proposal is left. */
  lemma {:induction false} Finished(proposals: seq<Proposal>, votes: Votes, now: int, k: nat)
    requires Ordered(proposals) && k >= Pending(proposals, votes, now)
    ensures ProposalsAfter(proposals, votes, now, k) == ProposalsAfter(proposals, votes, now, Pending(proposals, votes, now))
    ensures VotesAfter(proposals, votes, now, k) == VotesAfter(proposals, votes, now, Pending(proposals, votes, now))
    ensures !Expired(ProposalsAfter(proposals, votes, now, k), now)
  {
    var n := Pending(proposals, votes, now);
    Resumed(proposals, votes, now, n, k - n);
    Resumed(proposals, votes, now, k, 0);
  }

  ghost function ExpiredCount(proposals: seq<Proposal>, now: int): (n: nat)
    ensures n <= |proposals|
  {
    if !Expired(proposals, now) then 0 else 1 + ExpiredCount(proposals[1..], now)
  }

  /** The expired proposals are the first ones. */
  lemma {:induction false} ExpiredFirst(proposals: seq<Proposal>, now: int)
    requires Ordered(proposals)
    ensures forall i :: 0 <= i < |proposals| ==> (proposals[i].endDate <= now <==> i < ExpiredCount(proposals, now))
    decreases |proposals|
  {
    if Expired(proposals, now) {
      var rest := proposals[1..];
      ExpiredFirst(rest, now);
      forall i | 0 <= i < |proposals|
        ensures proposals[i].endDate <= now <==> i < ExpiredCount(proposals, now)
      {
        assert i > 0 ==> rest[i - 1] == proposals[i];
      }
    }
  }

  ghost predicate EndOf<T>(t: seq<T>, s: seq<T>) {
    |t| <= |s| && t == s[|s| - |t|..]
  }

  lemma {:induction false} EndOfEnd<T>(u: seq<T>, t: seq<T>, s: seq<T>)
    requires EndOf(u, t) && EndOf(t, s)
    ensures EndOf(u, s)
  {
  }

  ghost predicate HadExpired(proposals: seq<Proposal>, now: int, id: ProposalId) {
    exists p :: p in proposals && p.id == id && p.endDate <= now
  }

  lemma {:induction false} OneErased(proposals: seq<Proposal>, votes: Votes, now: int, id: ProposalId)
    requires Expired(proposals, now)
    ensures var ps, vs := OneFewerProposals(proposals, votes), OneFewerVotes(proposals, votes);
            && EndOf(ps, proposals) && |ps| + 1 >= |proposals| && EndOf(VotesOf(vs, id), VotesOf(votes, id))
            && (VotesOf(vs, id) != VotesOf(votes, id) ==> HadExpired(proposals, now, id))
            && (HadExpired(ps, now, id) ==> HadExpired(proposals, now, id))
  {
    assert proposals[0] in proposals;
  }

  /** However much has been erased: the proposals that are gone are the first and had expired, and a proposal that
      has lost votes had expired and lost its first ones. */
  lemma {:induction false} OnlyExpired(proposals: seq<Proposal>, votes: Votes, now: int, k: nat, id: ProposalId)
    requires Ordered(proposals)
    ensures var ps := ProposalsAfter(proposals, votes, now, k);
            EndOf(ps, proposals) && forall i :: 0 <= i < |proposals| - |ps| ==> proposals[i].endDate <= now
    ensures var before, after := VotesOf(votes, id), VotesOf(VotesAfter(proposals, votes, now, k), id);
            EndOf(after, before) && (after != before ==> HadExpired(proposals, now, id))
    decreases k
  {
    hide NoOrphans, Ordered, OneFewerProposals, OneFewerVotes, HadExpired;
    if k > 0 && Expired(proposals, now) {
      var ps, vs := OneFewerProposals(proposals, votes), OneFewerVotes(proposals, votes);
      OneStep(proposals, votes, now);
      OneErased(proposals, votes, now, id);
      OnlyExpired(ps, vs, now, k - 1, id);
      var rest, left := ProposalsAfter(ps, vs, now, k - 1), VotesAfter(ps, vs, now, k - 1);
      EndOfEnd(rest, ps, proposals);
      EndOfEnd(VotesOf(left, id), VotesOf(vs, id), VotesOf(votes, id));
      FirstOnes(proposals, ps, rest, now);
    } else {
      Itself(proposals);
      Itself(VotesOf(votes, id));
    }
  }

  lemma {:induction false} Itself<T>(s: seq<T>)
    ensures EndOf(s, s)
  {
  }

  lemma {:induction false} FirstOnes(proposals: seq<Proposal>, ps: seq<Proposal>, rest: seq<Proposal>, now: int)
    requires Expired(proposals, now) && EndOf(ps, proposals) && |ps| + 1 >= |proposals| && |rest| <= |ps|
    requires forall i :: 0 <= i < |ps| - |rest| ==> ps[i].endDate <= now
    ensures forall i :: 0 <= i < |proposals| - |rest| ==> proposals[i].endDate <= now
  {
    forall i | 0 < i < |proposals| - |rest|
      ensures proposals[i].endDate <= now
    {
      assert proposals[i] == if |ps| == |proposals| then ps[i] else ps[i - 1];
    }
  }

  ghost predicate Gone(proposals: seq<Proposal>, now: int, id: ProposalId) {
    exists i :: 0 <= i < ExpiredCount(proposals, now) && proposals[i].id == id
  }

  /** The whole deletion: no expired proposal and none of its votes is left, and nothing else is touched. */
  lemma {:induction false} WholeDeletion(proposals: seq<Proposal>, votes: Votes, now: int, id: ProposalId)
    requires Ordered(proposals)
    ensures var n := Pending(proposals, votes, now);
            && ProposalsAfter(proposals, votes, now, n) == proposals[ExpiredCount(proposals, now)..]
            && VotesOf(VotesAfter(proposals, votes, now, n), id)
               == if Gone(proposals, now, id) then [] else VotesOf(votes, id)
    decreases Pending(proposals, votes, now)
  {
    if Expired(proposals, now) {
      hide Gone, Ordered, NoOrphans, OneFewerProposals, OneFewerVotes, VotesOf, ProposalsAfter, VotesAfter, Pending;
      OneStep(proposals, votes, now);
      FirstGone(proposals, votes, now, Pending(proposals, votes, now));
      WholeDeletion(OneFewerProposals(proposals, votes), OneFewerVotes(proposals, votes), now, id);
      OneFewerGone(proposals, votes, now, id);
    } else {
      assert !Gone(proposals, now, id);
    }
  }

  lemma {:induction false} FirstGone(proposals: seq<Proposal>, votes: Votes, now: int, k: nat)
    requires Expired(proposals, now) && k >= 1
    ensures var ps, vs := OneFewerProposals(proposals, votes), OneFewerVotes(proposals, votes);
            && ProposalsAfter(proposals, votes, now, k) == ProposalsAfter(ps, vs, now, k - 1)
            && VotesAfter(proposals, votes, now, k) == VotesAfter(ps, vs, now, k - 1)
  {
  }

  /** Erasing one object changes neither which proposals are to go nor what is to be left. */
  lemma {:induction false} OneFewerGone(proposals: seq<Proposal>, votes: Votes, now: int, id: ProposalId)
    requires Expired(proposals, now)
    ensures var ps, vs := OneFewerProposals(proposals, votes), OneFewerVotes(proposals, votes);
            && ps[ExpiredCount(ps, now)..] == proposals[ExpiredCount(proposals, now)..]
            && (if Gone(ps, now, id) then [] else VotesOf(vs, id)) == if Gone(proposals, now, id) then [] else VotesOf(votes, id)
  {
    hide Gone;
    GoneNext(proposals, now, id);
  }

  lemma {:induction false} GoneNext(proposals: seq<Proposal>, now: int, id: ProposalId)
    requires Expired(proposals, now)
    ensures Gone(proposals, now, id) <==> proposals[0].id == id || Gone(proposals[1..], now, id)
  {
    if Gone(proposals, now, id) {
      var i :| 0 <= i < ExpiredCount(proposals, now) && proposals[i].id == id;
      assert i > 0 ==> proposals[1..][i - 1].id == id;
    }
    if Gone(proposals[1..], now, id) {
      var i :| 0 <= i < ExpiredCount(proposals[1..], now) && proposals[1..][i].id == id;
      assert proposals[i + 1].id == id;
    }
  }

  /** After n calls with a limit of `threshold`, exactly n * threshold objects of the deletion are done; so
      with a limit of at least one, enough calls do what one unlimited call does. */
  lemma {:induction false} RepeatedCalls(proposals: seq<Proposal>, votes: Votes, now: int, threshold: nat, n: nat)
    requires Ordered(proposals)
    ensures Called(proposals, votes, now, threshold, n)
      == (ProposalsAfter(proposals, votes, now, n * threshold), VotesAfter(proposals, votes, now, n * threshold))
    ensures threshold >= 1 && n >= Pending(proposals, votes, now) ==>
              var all := Pending(proposals, votes, now);
              Called(proposals, votes, now, threshold, n)
                == (ProposalsAfter(proposals, votes, now, all), VotesAfter(proposals, votes, now, all))
  {
    hide ProposalsAfter, VotesAfter, Pending, Ordered, NoOrphans;
    if n == 0 {
      NoneGone(proposals, votes, now);
    } else {
      RepeatedCalls(proposals, votes, now, threshold, n - 1);
      Resumed(proposals, votes, now, (n - 1) * threshold, threshold);
      assert n * threshold == (n - 1) * threshold + threshold;
    }
    if threshold >= 1 && n >= Pending(proposals, votes, now) {
      EnoughCalls(n, threshold);
      Finished(proposals, votes, now, n * threshold);
    }
  }

  lemma {:induction false} NoneGone(proposals: seq<Proposal>, votes: Votes, now: int)
    ensures ProposalsAfter(proposals, votes, now, 0) == proposals && VotesAfter(proposals, votes, now, 0) == votes
  {
  }

  lemma {:induction false} EnoughCalls(n: nat, threshold: nat)
    requires threshold >= 1
    ensures n * threshold >= n
  {
    assert n * (threshold - 1) >= 0;
  }

  /** What n calls with a limit leave. */
  ghost function Called(proposals: seq<Proposal>, votes: Votes, now: int, threshold: nat, n: nat): (seq<Proposal>,
                        Votes) {
    if n == 0 then (proposals, votes) else
      var (ps, vs) := Called(proposals, votes, now, threshold, n - 1);
      (ProposalsAfter(ps, vs, now, threshold), VotesAfter(ps, vs, now, threshold))
  }

  /** The next object, after k have gone. */
  lemma {:induction false} NextObject(ps: seq<Proposal>, vs: Votes, now: int, k: nat, proposals: seq<Proposal>,
                                      votes: Votes)
    requires Ordered(ps) && NoOrphans(ps, vs) && Expired(proposals, now)
    requires proposals == ProposalsAfter(ps, vs, now, k) && votes == VotesAfter(ps, vs, now, k)
    ensures ProposalsAfter(ps, vs, now, k + 1) == OneFewerProposals(proposals, votes)
    ensures VotesAfter(ps, vs, now, k + 1) == OneFewerVotes(proposals, votes)
    ensures Ordered(OneFewerProposals(proposals, votes))
    ensures NoOrphans(OneFewerProposals(proposals, votes), OneFewerVotes(proposals, votes))
    ensures k < Pending(ps, vs, now)
  {
    hide Ordered, NoOrphans, OneFewerProposals, OneFewerVotes;
    Resumed(ps, vs, now, k, 1);
    OneStep(proposals, votes, now);
    NoneGone(OneFewerProposals(proposals, votes), OneFewerVotes(proposals, votes), now);
  }

  /** A counter that has not passed a limiting threshold counts without wrapping; one that never does
      never passes a threshold that does not limit. */
  lemma {:induction false} NoWrap(counter: int, threshold: int)
    requires -0x8000 <= counter < 0x8000 && 0 <= threshold < 0x8000
    ensures Limited(threshold) && 0 <= counter <= threshold ==> Int16(counter + 1) == counter + 1
    ensures !Limited(threshold) ==> Int16(counter + 1) <= threshold
  {
  }

  /** How many objects one call erases. */
  ghost function Erased(proposals: seq<Proposal>, votes: Votes, now: int, threshold: int): nat {
    var all := Pending(proposals, votes, now);
    if Limited(threshold) && threshold < all then threshold else all
  }

  /** A call keeps to its threshold exactly if that is below 32767 or there is no more to erase. */
  lemma {:induction false} KeepsToThreshold(proposals: seq<Proposal>, votes: Votes, now: int, threshold: int)
    requires 0 <= threshold < 0x8000
    ensures Erased(proposals, votes, now, threshold) <= threshold <==>
      Limited(threshold) || Pending(proposals, votes, now) <= threshold
  {
  }

  /** An expired proposal with 40000 votes: 32767 is the one threshold that does not limit the call. */
  lemma {:induction false} CounterWrapsExample()
    ensures var proposals, votes := [Proposal(1, 0)], map[1 := seq(40000, i => i)];
            && Erased(proposals, votes, 0, 0x7FFE) == 0x7FFE
            && Erased(proposals, votes, 0, 0x7FFF) == 40001 > 0x7FFF
  {
    var proposals, votes := [Proposal(1, 0)], map[1 := seq(40000, i => i)];
    assert |VotesOf(votes, 1)| == 40000 && !Expired(proposals[1..], 0);
    assert Pending(proposals, votes, 0) == 40001;
  }

  class Proposals {
    var proposals: seq<Proposal>
    var votes: Votes

    ghost predicate Valid()
      reads this
    {
      Ordered(proposals) && NoOrphans(proposals, votes)
    }

    constructor ()
      ensures Valid() && proposals == [] && votes == map[]
    {
      proposals, votes := [], map[];
    }

    /** The budget of one call: counts an object and tells whether that was one too many. */
    method Check(counter: int, threshold: int) returns (next: int, done: bool)
      requires -0x8000 <= counter < 0x8000 && -0x8000 <= threshold < 0x8000
      ensures threshold < 0 ==> next == counter && !done
      ensures threshold >= 0 ==> next == Int16(counter + 1) && (done <==> next > threshold)
      ensures -0x8000 <= next < 0x8000
    {
      if threshold < 0 {
        return counter, false;
      }
      next := Int16(counter + 1);
      done := next > threshold;
    }

    /** Erases the first proposal's votes and then the proposal, while the budget lasts. */
    method RemoveFirst(now: int, threshold: int, counter: int) returns (next: int, done: bool, ghost erased: nat)
      requires Valid() && Expired(proposals, now)
      requires -0x8000 <= counter < 0x8000 && -0x8000 <= threshold < 0x8000
      requires Limited(threshold) ==> 0 <= counter <= threshold
      modifies `proposals, `votes
      ensures Valid()
      ensures proposals == ProposalsAfter(old(proposals), old(votes), now, erased)
      ensures votes == VotesAfter(old(proposals), old(votes), now, erased)
      ensures done ==> Limited(threshold) && counter + erased == threshold && erased < Pending(old(proposals), old(votes), now)
      ensures !done ==> proposals == old(proposals)[1..]
      ensures !done ==> -0x8000 <= next < 0x8000 && (Limited(threshold) ==> 0 <= next == counter + erased <= threshold)
      ensures erased <= Pending(old(proposals), old(votes), now)
    {
      hide ProposalsAfter, VotesAfter, Pending, Ordered, NoOrphans, Int16;
      ghost var ps, vs := proposals, votes;
      var id := proposals[0].id;
      next, done, erased := counter, false, 0;
      NoneGone(ps, vs, now);
      while VotesOf(votes, id) != []
        invariant proposals == ps && Valid() && !done && erased <= Pending(ps, vs, now)
        invariant -0x8000 <= next < 0x8000 && (Limited(threshold) ==> 0 <= next == counter + erased <= threshold)
        invariant proposals == ProposalsAfter(ps, vs, now, erased) && votes == VotesAfter(ps, vs, now, erased)
        decreases |VotesOf(votes, id)|
      {
        NextObject(ps, vs, now, erased, proposals, votes);
        if threshold >= 0 {
          NoWrap(next, threshold);
        }
        next, done := Check(next, threshold);
        if done {
          return;
        }
        votes := votes[id := votes[id][1..]];
        erased := erased + 1;
      }
      NextObject(ps, vs, now, erased, proposals, votes);
      if threshold >= 0 {
        NoWrap(next, threshold);
      }
      next, done := Check(next, threshold);
      if !done {
        proposals := proposals[1..];
        erased := erased + 1;
      }
    }

    /** One maintenance: erases the first `threshold` objects of what has expired, or all of it. */
    method RemoveProposals(now: int, threshold: int)
      requires Valid() && -0x8000 <= threshold < 0x8000
      modifies `proposals, `votes
      ensures Valid()
      ensures var k := Erased(old(proposals), old(votes), now, threshold);
              && proposals == ProposalsAfter(old(proposals), old(votes), now, k)
              && votes == VotesAfter(old(proposals), old(votes), now, k)
      ensures |proposals| <= |old(proposals)| && proposals == old(proposals)[|old(proposals)| - |proposals|..]
      ensures forall i :: 0 <= i < |old(proposals)| - |proposals| ==> old(proposals)[i].endDate <= now
      ensures forall id :: VotesOf(votes, id) != VotesOf(old(votes), id) ==>
        exists p :: p in old(proposals) && p.id == id && p.endDate <= now
      ensures threshold < 0 || threshold == 0x7FFF || threshold >= Pending(old(proposals), old(votes), now) ==>
        forall p :: p in proposals ==> p.endDate > now
    {
      hide ProposalsAfter, VotesAfter, Ordered, NoOrphans;
      ghost var ps, vs := proposals, votes;
      var counter, done := 0, false;
      ghost var k: nat := 0;
      NoneGone(ps, vs, now);
      while !done && Expired(proposals, now)
        invariant Valid() && k <= Pending(ps, vs, now)
        invariant proposals == ProposalsAfter(ps, vs, now, k) && votes == VotesAfter(ps, vs, now, k)
        invariant done ==> Limited(threshold) && k == threshold && k < Pending(ps, vs, now)
        invariant !done ==> -0x8000 <= counter < 0x8000 && (Limited(threshold) ==> 0 <= counter == k <= threshold)
        decreases !done, |proposals|
      {
        ghost var erased;
        Resumed(ps, vs, now, k, 0);
        counter, done, erased := RemoveFirst(now, threshold, counter);
        Resumed(ps, vs, now, k, erased);
        k := k + erased;
      }
      Resumed(ps, vs, now, k, 0);
      forall id
        ensures VotesOf(votes, id) != VotesOf(vs, id) ==> exists p :: p in ps && p.id == id && p.endDate <= now
      {
        OnlyExpired(ps, vs, now, k, id);
      }
      OnlyExpired(ps, vs, now, k, 0);
      if k >= Pending(ps, vs, now) {
        Finished(ps, vs, now, k);
        NoneExpired(proposals, now);
      }
    }
  }

  lemma {:induction false} NoneExpired(proposals: seq<Proposal>, now: int)
    requires Ordered(proposals) && !Expired(proposals, now)
    ensures forall p :: p in proposals ==> p.endDate > now
  {
  }
}
