/** The virtual-time scheduler of block producers. Every siming runs laps at a speed given by its
    adoration; each round the most adored are elected outright and the rest take turns in the order in
    which they complete their laps. */
module SimingSchedule {
  import opened Entities
  import opened Arithmetic
  import opened Sets
  import opened Uint128

  type SimingId = nat

  const EMPTY_NAME: Name := 0
  const LAP_LENGTH: uint128 := MAX_VALUE

  datatype ScheduleKind = Elected | Timeshare | Miner | Unscheduled

  datatype Siming = Siming(
    owner: Name,
    signs: bool,                // has a valid block signing key
    adores: nat,
    lastUpdate: uint128,
    position: uint128,
    scheduledTime: uint128,
    kind: ScheduleKind)

  type Simings = map<SimingId, Siming>

  /** The lap invariant: the siming was last updated in the past, is not scheduled in the past, and does
      not overrun its lap before its scheduled time. */
  ghost predicate OnLap(s: Siming, now: uint128) {
    && s.lastUpdate <= now <= s.scheduledTime
    && s.position + s.adores * (s.scheduledTime - s.lastUpdate) <= LAP_LENGTH
  }

  // ----- Changing a siming's adoration -----

  /** The change in wrapping arithmetic, as the node computes it. */
  function Adjusted(s: Siming, now: uint128, delta: int): Siming
    requires 0 <= s.adores + delta < MODULUS - 1 && s.adores < MODULUS
  {
    var position := Add(s.position, Mul(s.adores, Sub(now, s.lastUpdate)));
    var adores := s.adores + delta;
    var t := Add(now, Div(Sub(LAP_LENGTH, position), adores + 1));
    s.(position := position, lastUpdate := now, adores := adores,
       scheduledTime := if t < now then MAX_VALUE else t)
  }

  /** The same change in unbounded arithmetic: how far the siming has run, and the last time at which
      its new speed plus one keeps it within the lap. */
  ghost predicate IdealAdjustment(s: Siming, now: uint128, delta: int, s': Siming) {
    && s'.position == s.position + s.adores * (now - s.lastUpdate)
    && s'.lastUpdate == now
    && s'.adores == s.adores + delta
    && s'.owner == s.owner && s'.signs == s.signs && s'.kind == s.kind
    && now <= s'.scheduledTime
    && s'.position + (s'.adores + 1) * (s'.scheduledTime - now) <= LAP_LENGTH
    && (s'.scheduledTime == MAX_VALUE
        || LAP_LENGTH < s'.position + (s'.adores + 1) * (s'.scheduledTime + 1 - now))
  }

  /** On a valid lap the wrapping computation never wraps unnoticed: it is the ideal one, and the new
      lap is valid too. */
  lemma {:induction false} AdjustmentIsIdeal(s: Siming, now: uint128, delta: int)
    requires OnLap(s, now)
    requires 0 <= s.adores + delta < MODULUS - 1 && s.adores < MODULUS
    ensures IdealAdjustment(s, now, delta, Adjusted(s, now, delta))
    ensures OnLap(Adjusted(s, now, delta), now)
  {
    var run := now - s.lastUpdate;
    ProductMonotone(s.adores, run, s.scheduledTime - s.lastUpdate);
    WrapExact(run);
    WrapExact(s.adores * run);
    var position := s.position + s.adores * run;
    WrapExact(position);
    WrapExact(LAP_LENGTH - position);
    LapEnd(position, s.adores + delta, now);
  }

  /** The scheduled time computed from a position and a speed ends the lap exactly. */
  lemma {:induction false} LapEnd(position: uint128, adores: nat, now: uint128)
    requires adores < MODULUS - 1
    ensures var t := Add(now, Div(LAP_LENGTH - position, adores + 1));
            var end := if t < now then MAX_VALUE else t;
            && now <= end
            && position + (adores + 1) * (end - now) <= LAP_LENGTH
            && position + adores * (end - now) <= LAP_LENGTH
            && (end == MAX_VALUE || LAP_LENGTH < position + (adores + 1) * (end + 1 - now))
  {
    var left, d := LAP_LENGTH - position, adores + 1;
    var q := Div(left, d);
    AddWraps(now, q);
    var end := if now + q >= MODULUS then MAX_VALUE else now + q;
    ProductMonotone(d, end - now, q);
    ProductMonotone(end - now, adores, d);
    assert d * q <= left;
    if end == now + q {
      assert (adores + 1) * (end + 1 - now) == (q + 1) * d;
    }
  }

  // ----- Rounds -----

  /** A siming that completes its lap at time t starts a new one there. */
  function Lapped(s: Siming, t: uint128): Siming
    requires s.adores < MODULUS - 1
  {
    s.(position := 0, lastUpdate := t, scheduledTime := Add(t, Div(LAP_LENGTH, s.adores + 1)))
  }

  /** The lap begins at t and ends at the last time to which one more than the adores runs no further than a lap. */
  ghost predicate NewLap(s: Siming, t: uint128) {
    && s.position == 0 && s.lastUpdate == t
    && (s.adores + 1) * (s.scheduledTime - t) <= LAP_LENGTH < (s.adores + 1) * (s.scheduledTime + 1 - t)
  }

  /** A lap that begins at t ends past the last point of virtual time. */
  ghost predicate NeverEnds(adores: nat, t: uint128) {
    (adores + 1) * (MODULUS - t) <= LAP_LENGTH
  }

  lemma {:induction false} LappedOnLap(s: Siming, t: uint128)
    requires s.adores < MODULUS - 1
    requires Lapped(s, t).scheduledTime >= t
    ensures OnLap(Lapped(s, t), t)
  {
    LapEnd(0, s.adores, t);
  }

  /** Waiting until a later time that is not past the scheduled one keeps the lap valid. */
  lemma {:induction false} WaitOnLap(s: Siming, now: uint128, t: uint128)
    requires OnLap(s, now) && now <= t <= s.scheduledTime
    ensures OnLap(s, t)
  {
  }

  // ----- The two index orders -----

  /** by_adore_name: most adored first, then by name. */
  predicate RankBefore(s: Siming, t: Siming) {
    s.adores > t.adores || (s.adores == t.adores && s.owner < t.owner)
  }

  ghost predicate Lists(order: seq<SimingId>, S: Simings) {
    && (forall x :: x in S <==> x in order)
    && (forall i, j :: 0 <= i < j < |order| ==> order[i] != order[j])
  }

  ghost predicate ByAdore(order: seq<SimingId>, S: Simings) {
    Lists(order, S) && forall i, j :: 0 <= i < j < |order| ==> RankBefore(S[order[i]], S[order[j]])
  }

  /** by_schedule_time: earliest lap end first. */
  ghost predicate BySchedule(order: seq<SimingId>, S: Simings) {
    Lists(order, S)
    && forall i, j :: 0 <= i < j < |order| ==> S[order[i]].scheduledTime <= S[order[j]].scheduledTime
  }

  ghost function SignedIds(S: Simings): set<SimingId> {
    set x | x in S && S[x].signs
  }

  /** The chosen simings are marked with how they were chosen; nothing else about anyone changes. */
  ghost function Marked(S: Simings, chosen: seq<SimingId>, kind: ScheduleKind): Simings {
    map x | x in S :: if x in chosen then S[x].(kind := kind) else S[x]
  }

  ghost predicate Electable(S: Simings, elected: seq<SimingId>, max: nat) {
    && Distinct(elected) && Elements(elected) <= SignedIds(S) && |elected| <= max
    && forall x :: x in SignedIds(S) && x !in elected ==>
         |elected| == max && forall e :: e in elected && e in S ==> RankBefore(S[e], S[x])
  }

  ghost predicate Eligible(S: Simings, elected: seq<SimingId>, timeshare: seq<SimingId>) {
    && Distinct(timeshare) && Elements(timeshare) <= SignedIds(S) && Elements(timeshare) !! Elements(elected)
    && |elected| + |timeshare| <= MAX_SIMINGS
    && forall x :: x in SignedIds(S) && x !in elected && x !in timeshare ==>
         |elected| + |timeshare| == MAX_SIMINGS
         && forall t :: t in timeshare && t in S ==> S[t].scheduledTime <= S[x].scheduledTime
  }

  /** Nothing but the schedule mark distinguishes the two tables. */
  ghost predicate SameButKind(S: Simings, S': Simings) {
    S'.Keys == S.Keys && forall x :: x in S ==> S'[x] == S[x].(kind := S'[x].kind)
  }

  /** What has not been reached comes later in the order. */
  lemma {:induction false} Later(order: seq<SimingId>, i: nat, e: SimingId, x: SimingId) returns (m: nat, n: nat)
    requires i <= |order| && e in order[..i] && x in order && x !in order[..i]
    ensures m < n < |order| && order[m] == e && order[n] == x
  {
    m :| 0 <= m < i && order[m] == e;
    assert order == order[..i] + order[i..];
    var k :| 0 <= k < |order[i..]| && order[i..][k] == x;
    n := i + k;
  }

  lemma {:induction false} MarkedStep(S: Simings, chosen: seq<SimingId>, id: SimingId, kind: ScheduleKind)
    requires id in S && id !in chosen
    ensures Marked(S, chosen + [id], kind) == Marked(S, chosen, kind)[id := Marked(S, chosen, kind)[id].(kind := kind)]
  {
  }

  /** Of the first n in the order, those who sign and are not elected have been chosen. */
  ghost predicate TakenInTurn(S: Simings, order: seq<SimingId>, n: nat, elected: seq<SimingId>, timeshare: seq<SimingId>) {
    && n <= |order| && Distinct(timeshare)
    && forall x :: x in timeshare <==> x in order[..n] && x in S && S[x].signs && x !in elected
  }

  lemma {:induction false} NothingTaken(S: Simings, order: seq<SimingId>, elected: seq<SimingId>)
    ensures TakenInTurn(S, order, 0, elected, []) && Marked(S, [], Timeshare) == S
  {
  }

  lemma {:induction false} TakeNext(S: Simings, order: seq<SimingId>, n: nat, elected: seq<SimingId>,
                                    timeshare: seq<SimingId>)
    requires BySchedule(order, S) && n < |order| && TakenInTurn(S, order, n, elected, timeshare)
    ensures var id, marked := order[n], Marked(S, timeshare, Timeshare);
            && id in S && id in marked && marked[id].signs == S[id].signs
            && marked[id].scheduledTime == S[id].scheduledTime
            && (if S[id].signs && id !in elected
                then TakenInTurn(S, order, n + 1, elected, timeshare + [id])
                     && Marked(S, timeshare + [id], Timeshare) == marked[id := marked[id].(kind := Timeshare)]
                else TakenInTurn(S, order, n + 1, elected, timeshare))
  {
    var id := order[n];
    assert order[..n + 1] == order[..n] + [id];
    assert id !in order[..n];
    MarkedStep(S, timeshare, id, Timeshare);
  }

  /** Choosing along the order leaves nobody behind who would have been due earlier. */
  lemma {:induction false} FirstByTime(S: Simings, bySchedule: seq<SimingId>, processed: nat, elected: seq<SimingId>,
                                       timeshare: seq<SimingId>)
    requires BySchedule(bySchedule, S) && TakenInTurn(S, bySchedule, processed, elected, timeshare)
    requires |elected| + |timeshare| <= MAX_SIMINGS
    requires processed < |bySchedule| ==> |elected| + |timeshare| == MAX_SIMINGS
    ensures Eligible(S, elected, timeshare)
  {
    forall x, t | x in SignedIds(S) && x !in elected && x !in timeshare && t in timeshare
      ensures S[t].scheduledTime <= S[x].scheduledTime
    {
      var m, n := Later(bySchedule, processed, t, x);
    }
  }

  class Scheduler {
    var currentVirtualTime: uint128
    var simings: Simings
    var numScheduled: nat
    var maxAdored: nat
    const shuffled: array<Name>

    ghost predicate Sized()
      reads this
    {
      shuffled.Length == MAX_SIMINGS && forall x :: x in simings ==> simings[x].adores < MODULUS - 1
    }

    ghost predicate Valid()
      reads this
    {
      && Sized()
      && forall x :: x in simings ==> OnLap(simings[x], currentVirtualTime)
    }

    /** At genesis virtual time is zero, and one producer is seated. */
    constructor (first: Name)
      ensures Valid() && fresh(shuffled) && simings == map[] && currentVirtualTime == 0
      ensures numScheduled == 1 && maxAdored == MAX_SIMINGS && shuffled[0] == first
    {
      currentVirtualTime, simings, numScheduled, maxAdored := 0, map[], 1, MAX_SIMINGS;
      shuffled := new Name[MAX_SIMINGS](i => if i == 0 then first else EMPTY_NAME);
    }

    /** Adoration arrives or leaves: the lap is brought up to date and re-timed. */
    method AdjustSimingAdore(id: SimingId, delta: int, totalQi: nat) returns (ok: bool)
      requires Valid() && id in simings
      requires 0 <= simings[id].adores + delta && totalQi < MODULUS - 1
      modifies `simings
      ensures Valid()
      ensures ok <==> old(simings)[id].adores + delta <= totalQi
      ensures simings.Keys == old(simings).Keys && simings == old(simings)[id := simings[id]]
      ensures ok ==> IdealAdjustment(old(simings)[id], currentVirtualTime, delta, simings[id])
      ensures !ok ==> simings == old(simings)
    {
      var s := simings[id];
      if s.adores + delta > totalQi {
        return false;
      }
      AdjustmentIsIdeal(s, currentVirtualTime, delta);
      simings := simings[id := Adjusted(s, currentVirtualTime, delta)];
      return true;
    }

    /** A new siming starts unadored, with its lap as far away as possible. */
    method CreateSiming(id: SimingId, owner: Name, signs: bool)
      requires Valid() && id !in simings
      modifies `simings
      ensures Valid()
      ensures simings == old(simings)[id := Siming(owner, signs, 0, 0, 0, MAX_VALUE, Unscheduled)]
    {
      simings := simings[id := Siming(owner, signs, 0, 0, 0, MAX_VALUE, Unscheduled)];
    }

    method SelectElected(byAdore: seq<SimingId>) returns (elected: seq<SimingId>)
      requires ByAdore(byAdore, simings)
      modifies `simings
      ensures simings == Marked(old(simings), elected, Elected)
      ensures Electable(old(simings), elected, maxAdored)
    {
      elected := [];
      var i := 0;
      while i < |byAdore| && |elected| < maxAdored
        invariant i <= |byAdore| && |elected| <= maxAdored
        invariant simings == Marked(old(simings), elected, Elected)
        invariant Distinct(elected)
        invariant forall x :: x in elected <==> x in byAdore[..i] && old(simings)[x].signs
      {
        var id := byAdore[i];
        assert byAdore[..i + 1] == byAdore[..i] + [id];
        assert id !in byAdore[..i];
        if simings[id].signs {
          MarkedStep(old(simings), elected, id, Elected);
          elected := elected + [id];
          simings := simings[id := simings[id].(kind := Elected)];
        }
        i := i + 1;
      }
      forall x, e | x in SignedIds(old(simings)) && x !in elected && e in elected
        ensures RankBefore(old(simings)[e], old(simings)[x])
      {
        var m, n := Later(byAdore, i, e, x);
      }
    }

    /** Everyone processed has reached the new virtual time: the last lap end looked at. */
    method SelectTimeshare(bySchedule: seq<SimingId>, elected: seq<SimingId>)
      returns (timeshare: seq<SimingId>, processed: nat, newTime: uint128)
      requires BySchedule(bySchedule, simings) && |elected| <= MAX_SIMINGS
      modifies `simings
      ensures simings == Marked(old(simings), timeshare, Timeshare)
      ensures Eligible(old(simings), elected, timeshare)
      ensures processed <= |bySchedule|
      ensures newTime == if processed == 0 then currentVirtualTime
                         else old(simings)[bySchedule[processed - 1]].scheduledTime
      ensures processed < |bySchedule| ==> |elected| + |timeshare| == MAX_SIMINGS
    {
      hide Marked, TakenInTurn, BySchedule, Eligible;
      ghost var before := simings;
      timeshare, processed, newTime := [], 0, currentVirtualTime;
      var count := |elected|;
      NothingTaken(before, bySchedule, elected);
      while processed < |bySchedule| && count < MAX_SIMINGS
        invariant processed <= |bySchedule| && count == |elected| + |timeshare| <= MAX_SIMINGS
        invariant simings == Marked(before, timeshare, Timeshare)
        invariant TakenInTurn(before, bySchedule, processed, elected, timeshare)
        invariant processed > 0 ==> bySchedule[processed - 1] in before
        invariant newTime == if processed == 0 then currentVirtualTime else before[bySchedule[processed - 1]].scheduledTime
      {
        var id := bySchedule[processed];
        TakeNext(before, bySchedule, processed, elected, timeshare);
        newTime := simings[id].scheduledTime;
        if simings[id].signs && id !in elected {
          timeshare := timeshare + [id];
          simings := simings[id := simings[id].(kind := Timeshare)];
          count := count + 1;
        }
        processed := processed + 1;
      }
      FirstByTime(before, bySchedule, processed, elected, timeshare);
    }

    /** Starts the processed simings' next laps, stopping at the first one whose end would overflow. */
    method StartLaps(processed: seq<SimingId>, t: uint128) returns (overflow: bool)
      requires Sized() && Distinct(processed) && forall i :: 0 <= i < |processed| ==> processed[i] in simings
      modifies `simings
      ensures overflow <==> Overflows(old(simings), processed, t)
      ensures !overflow ==> simings == LapsStarted(old(simings), processed, t)
      ensures simings.Keys == old(simings).Keys
      ensures forall x :: x in simings ==> SameIdentity(simings[x], old(simings)[x])
      ensures overflow <==> exists i :: 0 <= i < |processed| && NeverEnds(old(simings)[processed[i]].adores, t)
      ensures !overflow ==> forall x :: x in simings && x in processed ==> NewLap(simings[x], t)
    {
      hide NewLap, NeverEnds, LapsStarted, Overflows, SameIdentity;
      LapsMean(simings, processed, t);
      LapsStart(simings, processed, t);
      var i := 0;
      while i < |processed|
        invariant i <= |processed|
        invariant simings == LapsStarted(old(simings), processed[..i], t)
        invariant forall k :: 0 <= k < i ==> !NeverEnds(old(simings)[processed[k]].adores, t)
      {
        LapsStep(old(simings), processed, i, t);
        var s := simings[processed[i]];
        LappedMeans(s, t);
        var end := Add(t, Div(LAP_LENGTH, s.adores + 1));
        AddWraps(t, Div(LAP_LENGTH, s.adores + 1));
        if end < t {
          LapsMean(old(simings), processed[..i], t);
          return true;
        }
        simings := simings[processed[i] := s.(position := 0, lastUpdate := t, scheduledTime := end)];
        i := i + 1;
      }
      assert processed[..i] == processed;
      return false;
    }

    method ResetVirtualScheduleTime()
      requires Sized()
      modifies `currentVirtualTime, `simings
      ensures Valid() && currentVirtualTime == 0
      ensures simings == AllRestarted(old(simings))
      ensures forall x :: x in simings ==> NewLap(simings[x], 0)
    {
      hide NewLap;
      currentVirtualTime := 0;
      RestartedOnLap(simings);
      RestartMeans(simings);
      simings := map x | x in simings :: simings[x].(
        position := 0, lastUpdate := 0, scheduledTime := Div(LAP_LENGTH, simings[x].adores + 1));
    }

    /** One scheduling round: choose the producers, advance virtual time, restart everybody when the
        time line overflows, and shuffle the chosen into the slots. */
    method UpdateSimingSchedule(byAdore: seq<SimingId>, bySchedule: seq<SimingId>, headTime: bv64)
      returns (elected: seq<SimingId>, timeshare: seq<SimingId>, processed: nat, newTime: uint128)
      requires Valid() && maxAdored <= MAX_SIMINGS
      requires ByAdore(byAdore, simings) && BySchedule(bySchedule, simings)
      modifies `currentVirtualTime, `simings, `numScheduled, shuffled
      ensures Valid()
      ensures Electable(old(simings), elected, maxAdored) && Eligible(old(simings), elected, timeshare)
      ensures processed <= |bySchedule|
      ensures forall x :: x in bySchedule ==> x in old(simings)
      ensures newTime == if processed == 0 then old(currentVirtualTime)
                         else old(simings)[bySchedule[processed - 1]].scheduledTime
      ensures old(currentVirtualTime) <= newTime
      ensures RoundTimes(old(simings), elected, timeshare, bySchedule[..processed], newTime, currentVirtualTime, simings)
      ensures simings.Keys == old(simings).Keys
      ensures (exists i :: 0 <= i < processed && NeverEnds(old(simings)[bySchedule[i]].adores, newTime)) ==>
        currentVirtualTime == 0 && forall x :: x in simings ==> NewLap(simings[x], 0)
      ensures !(exists i :: 0 <= i < processed && NeverEnds(old(simings)[bySchedule[i]].adores, newTime)) ==> (
        && currentVirtualTime == newTime
        && (forall x :: x in simings && x in bySchedule[..processed] ==> NewLap(simings[x], newTime))
        && forall x :: x in simings && x !in bySchedule[..processed] ==>
             simings[x].(kind := old(simings)[x].kind) == old(simings)[x])
      ensures forall x :: x in simings ==> (
        && simings[x].owner == old(simings)[x].owner && simings[x].signs == old(simings)[x].signs
        && simings[x].adores == old(simings)[x].adores
        && simings[x].kind == if x in timeshare then Timeshare else if x in elected then Elected
                              else old(simings)[x].kind)
      ensures numScheduled == if elected + timeshare == [] then 1 else |elected + timeshare|
      ensures IsShuffle(shuffled[..], Seats(old(simings), elected + timeshare), numScheduled)
      ensures forall x :: x in elected || x in timeshare ==>
                x in old(simings) && old(simings)[x].signs && old(simings)[x].owner in shuffled[..]
      ensures forall x :: x in old(simings) && old(simings)[x].signs && x !in elected ==>
                && |elected| == maxAdored
                && forall e :: e in elected ==> old(simings)[e].adores >= old(simings)[x].adores
      ensures forall x :: x in old(simings) && old(simings)[x].signs && x !in elected && x !in timeshare ==>
                && |elected| + |timeshare| == MAX_SIMINGS
                && forall e :: e in timeshare ==> old(simings)[e].scheduledTime <= old(simings)[x].scheduledTime
      ensures forall j :: numScheduled <= j < shuffled.Length ==> shuffled[j] == EMPTY_NAME
    {
      hide Electable, Eligible, RankBefore, OnLap, BySchedule, Lists, Elements, Marked, AllRestarted, LapsStarted;
      hide Overflows, NewTime, Seats, IsShuffle, NewLap, NeverEnds, Distinct, RoundTimes;
      ScheduleLists(bySchedule, simings);
      ghost var before := simings;
      elected, timeshare, processed, newTime := RunRound(byAdore, bySchedule, headTime);
      SelectedTime(before, bySchedule, processed, old(currentVirtualTime));
      ChoiceMeans(before, elected, timeshare, maxAdored);
      SeatedMeans(before, elected + timeshare, shuffled[..], numScheduled);
      RoundMeans(before, elected, timeshare, bySchedule, processed, newTime, currentVirtualTime, simings);
    }

    /** The round itself: the choice, the new times, the seats. */
    method RunRound(byAdore: seq<SimingId>, bySchedule: seq<SimingId>, headTime: bv64)
      returns (elected: seq<SimingId>, timeshare: seq<SimingId>, processed: nat, newTime: uint128)
      requires Valid() && maxAdored <= MAX_SIMINGS
      requires ByAdore(byAdore, simings) && BySchedule(bySchedule, simings)
      modifies `currentVirtualTime, `simings, `numScheduled, shuffled
      ensures Valid() && Electable(old(simings), elected, maxAdored) && Eligible(old(simings), elected, timeshare)
      ensures processed <= |bySchedule|
      ensures newTime == NewTime(old(currentVirtualTime), old(simings), bySchedule[..processed]) >= old(currentVirtualTime)
      ensures RoundTimes(old(simings), elected, timeshare, bySchedule[..processed], newTime, currentVirtualTime, simings)
      ensures numScheduled == if elected + timeshare == [] then 1 else |elected + timeshare|
      ensures |elected + timeshare| <= MAX_SIMINGS
      ensures IsShuffle(shuffled[..], Seats(old(simings), elected + timeshare), numScheduled)
    {
      hide Electable, Eligible, RankBefore, OnLap, BySchedule, Lists, Elements, Marked, AllRestarted, LapsStarted;
      hide Overflows, NewTime, Seats, IsShuffle, SameButKind, Distinct, RoundTimes;
      elected, timeshare, processed, newTime := SelectProducers(byAdore, bySchedule);
      ghost var marked := simings;
      KindFreeTime(old(simings), marked, bySchedule[..processed], currentVirtualTime);
      ScheduleLists(bySchedule, marked);
      TimeAdvances(marked, bySchedule, processed, currentVirtualTime);
      EligibleFits(old(simings), elected, timeshare);
      SameKeys(old(simings), marked);
      AdvanceTime(bySchedule, processed, newTime);
      RoundIs(old(simings), marked, elected, timeshare, bySchedule[..processed], newTime, currentVirtualTime, simings);
      Seat(elected + timeshare, headTime);
      KindFreeSeats(old(simings), simings, elected + timeshare);
    }

    /** Chooses the round's producers and marks them. */
    method SelectProducers(byAdore: seq<SimingId>, bySchedule: seq<SimingId>)
      returns (elected: seq<SimingId>, timeshare: seq<SimingId>, processed: nat, newTime: uint128)
      requires Valid() && maxAdored <= MAX_SIMINGS
      requires ByAdore(byAdore, simings) && BySchedule(bySchedule, simings)
      modifies `simings
      ensures Valid() && BySchedule(bySchedule, simings) && SameButKind(old(simings), simings)
      ensures simings == Marked(Marked(old(simings), elected, Elected), timeshare, Timeshare)
      ensures Electable(old(simings), elected, maxAdored) && Eligible(old(simings), elected, timeshare)
      ensures Elements(elected) <= old(simings).Keys
      ensures processed <= |bySchedule| && newTime == NewTime(currentVirtualTime, old(simings), bySchedule[..processed])
    {
      hide Electable, Eligible, RankBefore, OnLap, BySchedule, Lists, Elements, Marked, NewTime;
      elected := SelectElected(byAdore);
      ghost var halfway := simings;
      MarkedDiffersInKind(old(simings), elected, Elected);
      KindFreeValid(old(simings), halfway, currentVirtualTime);
      KindFreeOrder(old(simings), halfway, bySchedule);
      ElectedFits(old(simings), elected, maxAdored);
      timeshare, processed, newTime := SelectTimeshare(bySchedule, elected);
      MarkedDiffersInKind(halfway, timeshare, Timeshare);
      KindFreeValid(halfway, simings, currentVirtualTime);
      KindFreeOrder(halfway, simings, bySchedule);
      KindFreeChoice(old(simings), halfway, elected, timeshare);
      KindFreeTime(old(simings), halfway, bySchedule[..processed], currentVirtualTime);
      ScheduleLists(bySchedule, halfway);
      SelectedTime(halfway, bySchedule, processed, currentVirtualTime);
    }

    /** Moves to the new virtual time and starts the laps of everyone processed, or restarts all. */
    method AdvanceTime(bySchedule: seq<SimingId>, processed: nat, newTime: uint128)
      requires Valid() && BySchedule(bySchedule, simings) && processed <= |bySchedule|
      requires newTime == NewTime(currentVirtualTime, simings, bySchedule[..processed])
      modifies `currentVirtualTime, `simings
      ensures Valid()
      ensures if Overflows(old(simings), bySchedule[..processed], newTime)
              then currentVirtualTime == 0 && simings == AllRestarted(old(simings))
              else currentVirtualTime == newTime && simings == LapsStarted(old(simings), bySchedule[..processed], newTime)
      ensures simings.Keys == old(simings).Keys
      ensures forall x :: x in simings ==> simings[x].owner == old(simings)[x].owner
    {
      hide OnLap, BySchedule, Lists, Distinct, Elements, Lapped, LapsStarted, AllRestarted, NewTime, SameIdentity, Overflows,
        NewLap, NeverEnds;
      ScheduleLists(bySchedule, simings);
      PrefixDistinct(bySchedule, processed, simings);
      if !Overflows(simings, bySchedule[..processed], newTime) {
        LapsOnLap(simings, bySchedule, processed, currentVirtualTime, newTime);
      }
      var overflow := StartLaps(bySchedule[..processed], newTime);
      if overflow {
        RestartForgets(old(simings), simings);
        ResetVirtualScheduleTime();
      } else {
        LapsKeys(old(simings), bySchedule[..processed], newTime);
        currentVirtualTime := newTime;
      }
    }

    /** Writes the chosen producers' names into the slots, blanks the rest, and shuffles. */
    method Seat(active: seq<SimingId>, headTime: bv64)
      requires shuffled.Length == MAX_SIMINGS && |active| <= MAX_SIMINGS && Elements(active) <= simings.Keys
      modifies `numScheduled, shuffled
      ensures numScheduled == if active == [] then 1 else |active|
      ensures IsShuffle(shuffled[..], Seats(simings, active), numScheduled)
    {
      var i := 0;
      while i < |active|
        invariant i <= |active|
        invariant forall j :: 0 <= j < i ==> shuffled[j] == simings[active[j]].owner
      {
        assert active[i] in Elements(active);
        shuffled[i] := simings[active[i]].owner;
        i := i + 1;
      }
      while i < MAX_SIMINGS
        invariant |active| <= i <= MAX_SIMINGS
        invariant forall j :: 0 <= j < |active| ==> shuffled[j] == simings[active[j]].owner
        invariant forall j :: |active| <= j < i ==> shuffled[j] == EMPTY_NAME
      {
        shuffled[i] := EMPTY_NAME;
        i := i + 1;
      }
      assert shuffled[..] == Seats(simings, active);
      numScheduled := if active == [] then 1 else |active|;
      Shuffle(shuffled, numScheduled, headTime << 32);
    }
  }

  /** The high-performance random generator that drives the shuffle. */
  function Xorshift(nowHigh: bv64, i: nat): bv64
    requires i < 0x1_0000_0000
  {
    var k := nowHigh + (i as bv64) * 2685821657736338717;
    var k1 := k ^ (k >> 12);
    var k2 := k1 ^ (k1 << 25);
    var k3 := k2 ^ (k2 >> 27);
    k3 * 2685821657736338717
  }

  /** The first n entries are rearranged and the others stay where they are. */
  ghost predicate IsShuffle(after: seq<Name>, before: seq<Name>, n: nat) {
    n <= |before| == |after| && multiset(after) == multiset(before) && after[n..] == before[n..]
  }

  method Shuffle(a: array<Name>, n: nat, nowHigh: bv64)
    requires n <= a.Length < 0x1_0000_0000
    modifies a
    ensures IsShuffle(a[..], old(a[..]), n)
  {
    var i := 0;
    while i < n
      invariant i <= n
      invariant IsShuffle(a[..], old(a[..]), n)
    {
      var jmax := n - i;
      var k := Xorshift(nowHigh, i);
      var j := i + (k as int) % jmax;
      a[i], a[j] := a[j], a[i];
      i := i + 1;
    }
  }

  // ----- What a round means -----

  ghost function Seats(S: Simings, active: seq<SimingId>): seq<Name> {
    seq(MAX_SIMINGS, (i: int) =>
      if 0 <= i < |active| && active[i] in S then S[active[i]].owner else EMPTY_NAME)
  }

  ghost function NewTime(now: uint128, S: Simings, processed: seq<SimingId>): uint128 {
    if processed != [] && processed[|processed| - 1] in S
    then S[processed[|processed| - 1]].scheduledTime else now
  }

  ghost predicate Overflows(S: Simings, processed: seq<SimingId>, t: uint128) {
    exists x :: x in processed && x in S && t + Div(LAP_LENGTH, S[x].adores + 1) >= MODULUS
  }

  /** The clock and the laps after a round that processed these simings up to newTime. */
  ghost predicate RoundTimes(S: Simings, elected: seq<SimingId>, timeshare: seq<SimingId>,
                             processed: seq<SimingId>, newTime: uint128, clock: uint128, S': Simings)
    requires forall x :: x in S ==> S[x].adores < MODULUS - 1
  {
    var marked := Marked(Marked(S, elected, Elected), timeshare, Timeshare);
    if Overflows(S, processed, newTime)
    then clock == 0 && S' == AllRestarted(marked)
    else clock == newTime && S' == LapsStarted(marked, processed, newTime)
  }

  ghost predicate SameIdentity(s: Siming, t: Siming) {
    s.owner == t.owner && s.signs == t.signs && s.adores == t.adores && s.kind == t.kind
  }

  ghost function LapsStarted(S: Simings, processed: seq<SimingId>, t: uint128): Simings
    requires forall x :: x in S ==> S[x].adores < MODULUS - 1
  {
    map x | x in S :: if x in processed then Lapped(S[x], t) else S[x]
  }

  ghost function AllRestarted(S: Simings): Simings {
    map x | x in S :: S[x].(position := 0, lastUpdate := 0, scheduledTime := Div(LAP_LENGTH, S[x].adores + 1))
  }

  lemma {:induction false} LappedMeans(s: Siming, t: uint128)
    requires s.adores < MODULUS - 1
    ensures t + Div(LAP_LENGTH, s.adores + 1) >= MODULUS <==> NeverEnds(s.adores, t)
    ensures !NeverEnds(s.adores, t) ==> NewLap(Lapped(s, t), t)
  {
    var d := s.adores + 1;
    var q := Div(LAP_LENGTH, d);
    AddWraps(t, q);
    if q >= MODULUS - t {
      ProductMonotone(d, MODULUS - t, q);
    } else {
      ProductMonotone(d, q + 1, MODULUS - t);
    }
  }

  /** Time overflows exactly if some processed siming's lap would not end in time. Otherwise each processed siming
      starts a new lap, and the others run on. */
  lemma {:induction false} LapsMean(S: Simings, processed: seq<SimingId>, t: uint128)
    requires forall x :: x in S ==> S[x].adores < MODULUS - 1
    requires forall i :: 0 <= i < |processed| ==> processed[i] in S
    ensures Overflows(S, processed, t) <==> exists i :: 0 <= i < |processed| && NeverEnds(S[processed[i]].adores, t)
    ensures LapsStarted(S, processed, t).Keys == S.Keys
    ensures !Overflows(S, processed, t) ==>
      forall x :: x in S && x in processed ==> NewLap(LapsStarted(S, processed, t)[x], t)
    ensures forall x :: x in S ==> SameIdentity(LapsStarted(S, processed, t)[x], S[x])
    ensures forall x :: x in S && x !in processed ==> LapsStarted(S, processed, t)[x] == S[x]
  {
    hide NewLap, NeverEnds;
    forall x | x in S
      ensures t + Div(LAP_LENGTH, S[x].adores + 1) >= MODULUS <==> NeverEnds(S[x].adores, t)
      ensures !NeverEnds(S[x].adores, t) ==> NewLap(Lapped(S[x], t), t)
    {
      LappedMeans(S[x], t);
    }
  }

  lemma {:induction false} LapsStart(S: Simings, processed: seq<SimingId>, t: uint128)
    requires forall x :: x in S ==> S[x].adores < MODULUS - 1
    ensures LapsStarted(S, processed[..0], t) == S
  {
  }

  lemma {:induction false} LapsStep(S: Simings, processed: seq<SimingId>, i: nat, t: uint128)
    requires forall x :: x in S ==> S[x].adores < MODULUS - 1
    requires i < |processed| && Distinct(processed) && forall k :: 0 <= k < |processed| ==> processed[k] in S
    ensures var id, started := processed[i], LapsStarted(S, processed[..i], t);
            && id in S && id in started && started[id] == S[id]
            && LapsStarted(S, processed[..i + 1], t) == started[id := Lapped(S[id], t)]
  {
    hide Lapped;
    assert processed[..i + 1] == processed[..i] + [processed[i]];
    assert processed[i] !in processed[..i];
  }

  /** A restart gives everyone a new lap from time zero. */
  lemma {:induction false} RestartMeans(S: Simings)
    requires forall x :: x in S ==> S[x].adores < MODULUS - 1
    ensures AllRestarted(S).Keys == S.Keys
    ensures forall x :: x in S ==> SameIdentity(AllRestarted(S)[x], S[x]) && NewLap(AllRestarted(S)[x], 0)
  {
    hide NewLap, NeverEnds;
    forall x | x in S
      ensures NewLap(AllRestarted(S)[x], 0)
    {
      RestartedLap(S[x], AllRestarted(S)[x]);
    }
  }

  lemma {:induction false} RestartedLap(s: Siming, s': Siming)
    requires s' == s.(position := 0, lastUpdate := 0, scheduledTime := Div(LAP_LENGTH, s.adores + 1))
    ensures NewLap(s', 0)
  {
  }

  lemma {:induction false} RoundIs(S: Simings, marked: Simings, elected: seq<SimingId>, timeshare: seq<SimingId>,
                                   processed: seq<SimingId>, newTime: uint128, clock: uint128, S': Simings)
    requires forall x :: x in S ==> S[x].adores < MODULUS - 1
    requires forall x :: x in marked ==> marked[x].adores < MODULUS - 1
    requires marked == Marked(Marked(S, elected, Elected), timeshare, Timeshare) && SameButKind(S, marked)
    requires if Overflows(marked, processed, newTime) then clock == 0 && S' == AllRestarted(marked)
             else clock == newTime && S' == LapsStarted(marked, processed, newTime)
    ensures RoundTimes(S, elected, timeshare, processed, newTime, clock, S')
  {
    hide Overflows, Marked, LapsStarted, AllRestarted;
    KindFreeOverflow(S, marked, processed, newTime);
  }

  /** What a round does to the clock and the laps, in terms of the simings before it. */
  lemma {:induction false} RoundMeans(S: Simings, elected: seq<SimingId>, timeshare: seq<SimingId>, order: seq<SimingId>,
                                      processed: nat, newTime: uint128, clock: uint128, S': Simings)
    requires forall x :: x in S ==> S[x].adores < MODULUS - 1
    requires Lists(order, S) && processed <= |order|
    requires RoundTimes(S, elected, timeshare, order[..processed], newTime, clock, S')
    ensures (forall x :: x in order ==> x in S) && S'.Keys == S.Keys
    ensures (exists i :: 0 <= i < processed && NeverEnds(S[order[i]].adores, newTime)) ==>
      clock == 0 && forall x :: x in S' ==> NewLap(S'[x], 0)
    ensures !(exists i :: 0 <= i < processed && NeverEnds(S[order[i]].adores, newTime)) ==> (
      && clock == newTime
      && (forall x :: x in S' && x in order[..processed] ==> NewLap(S'[x], newTime))
      && forall x :: x in S' && x !in order[..processed] ==> S'[x].(kind := S[x].kind) == S[x])
    ensures forall x :: x in S' ==> (
      && S'[x].owner == S[x].owner && S'[x].signs == S[x].signs && S'[x].adores == S[x].adores
      && S'[x].kind == if x in timeshare then Timeshare else if x in elected then Elected else S[x].kind)
  {
    hide LapsStarted, AllRestarted, Overflows, NewLap, NeverEnds, Marked;
    var marked := Marked(Marked(S, elected, Elected), timeshare, Timeshare);
    MarkedTwice(S, elected, timeshare);
    OrderedIn(order, processed, S);
    LapsMean(marked, order[..processed], newTime);
    RestartMeans(marked);
    KindFreeOverflow(S, marked, order[..processed], newTime);
  }

  lemma {:induction false} ChoiceMeans(S: Simings, elected: seq<SimingId>, timeshare: seq<SimingId>, max: nat)
    requires Electable(S, elected, max) && Eligible(S, elected, timeshare)
    ensures forall x :: x in elected || x in timeshare ==> x in elected + timeshare && x in S && S[x].signs
    ensures forall x :: x in S && S[x].signs && x !in elected ==>
              |elected| == max && forall e :: e in elected ==> S[e].adores >= S[x].adores
    ensures forall x :: x in S && S[x].signs && x !in elected && x !in timeshare ==>
              && |elected| + |timeshare| == MAX_SIMINGS
              && forall e :: e in timeshare ==> S[e].scheduledTime <= S[x].scheduledTime
  {
    forall x | x in elected || x in timeshare
      ensures x in S && S[x].signs && x in elected + timeshare
    {
      assert x in Elements(elected) || x in Elements(timeshare);
    }
  }

  /** Who is chosen has a seat, and the other seats are empty. */
  lemma {:induction false} SeatedMeans(S: Simings, active: seq<SimingId>, after: seq<Name>, n: nat)
    requires |active| <= n <= MAX_SIMINGS && IsShuffle(after, Seats(S, active), n)
    ensures forall x :: x in active && x in S ==> S[x].owner in after
    ensures forall j :: n <= j < |after| ==> after[j] == EMPTY_NAME
  {
    var seats := Seats(S, active);
    forall x | x in active && x in S
      ensures S[x].owner in after
    {
      var i :| 0 <= i < |active| && active[i] == x;
      assert seats[i] == S[x].owner;
      assert S[x].owner in multiset(after);
    }
    forall j | n <= j < |after|
      ensures after[j] == EMPTY_NAME
    {
      assert after[n..][j - n] == seats[n..][j - n];
    }
  }

  lemma {:induction false} OrderedIn(order: seq<SimingId>, n: nat, S: Simings)
    requires Lists(order, S) && n <= |order|
    ensures forall i :: 0 <= i < n ==> order[..n][i] == order[i] && order[i] in S
    ensures forall x :: x in order ==> x in S
  {
  }

  lemma {:induction false} MarkedTwice(S: Simings, elected: seq<SimingId>, timeshare: seq<SimingId>)
    ensures var marked := Marked(Marked(S, elected, Elected), timeshare, Timeshare);
            && SameButKind(S, marked)
            && forall x :: x in S ==>
                 marked[x].kind == if x in timeshare then Timeshare else if x in elected then Elected else S[x].kind
  {
  }

  lemma {:induction false} RestartForgets(S: Simings, S': Simings)
    requires S'.Keys == S.Keys && forall x :: x in S ==> SameIdentity(S'[x], S[x])
    ensures AllRestarted(S') == AllRestarted(S)
    ensures AllRestarted(S).Keys == S.Keys && forall x :: x in S ==> AllRestarted(S)[x].owner == S[x].owner
    ensures forall x :: x in S ==> S'[x].adores == S[x].adores
  {
  }

  lemma {:induction false} LapsKeys(S: Simings, processed: seq<SimingId>, t: uint128)
    requires forall x :: x in S ==> S[x].adores < MODULUS - 1
    ensures LapsStarted(S, processed, t).Keys == S.Keys
    ensures forall x :: x in S ==> LapsStarted(S, processed, t)[x].adores == S[x].adores
    ensures forall x :: x in S ==> LapsStarted(S, processed, t)[x].owner == S[x].owner
  {
  }

  lemma {:induction false} SameKeys(S: Simings, S': Simings)
    requires SameButKind(S, S')
    ensures S'.Keys == S.Keys && forall x :: x in S ==> S'[x].owner == S[x].owner
  {
  }

  lemma {:induction false} ScheduleLists(order: seq<SimingId>, S: Simings)
    requires BySchedule(order, S)
    ensures Lists(order, S)
  {
  }

  lemma {:induction false} RestartedOnLap(S: Simings)
    requires forall x :: x in S ==> S[x].adores < MODULUS - 1
    ensures forall x :: x in S ==> OnLap(AllRestarted(S)[x], 0)
  {
    forall x | x in S
      ensures OnLap(AllRestarted(S)[x], 0)
    {
      WrapExact(Div(LAP_LENGTH, S[x].adores + 1));
      LappedOnLap(S[x], 0);
    }
  }

  lemma {:induction false} PrefixDistinct(order: seq<SimingId>, n: nat, S: Simings)
    requires Lists(order, S) && n <= |order|
    ensures Distinct(order[..n]) && forall i :: 0 <= i < |order[..n]| ==> order[..n][i] in S
  {
  }

  /** When no lap end overflows, everyone is on a valid lap at the new virtual time. */
  lemma {:induction false} LapsOnLap(S: Simings, order: seq<SimingId>, n: nat, now: uint128, t: uint128)
    requires BySchedule(order, S) && n <= |order| && t == NewTime(now, S, order[..n])
    requires forall x :: x in S ==> S[x].adores < MODULUS - 1 && OnLap(S[x], now)
    requires !Overflows(S, order[..n], t)
    ensures forall x :: x in S ==> OnLap(LapsStarted(S, order[..n], t)[x], t)
  {
    forall x | x in S
      ensures OnLap(LapsStarted(S, order[..n], t)[x], t)
    {
      if x in order[..n] {
        AddWraps(t, Div(LAP_LENGTH, S[x].adores + 1));
        LappedOnLap(S[x], t);
      } else if n > 0 {
        assert order[n - 1] in order[..n];
        var i, j := Later(order, n, order[n - 1], x);
        assert order[n - 1] in S;
        WaitOnLap(S[x], now, t);
      }
    }
  }

  lemma {:induction false} MarkedDiffersInKind(S: Simings, chosen: seq<SimingId>, kind: ScheduleKind)
    ensures SameButKind(S, Marked(S, chosen, kind))
  {
  }

  lemma {:induction false} KindFreeOrder(S: Simings, S': Simings, order: seq<SimingId>)
    requires BySchedule(order, S) && SameButKind(S, S')
    ensures BySchedule(order, S')
  {
  }

  lemma {:induction false} KindFreeChoice(S: Simings, S': Simings, elected: seq<SimingId>, timeshare: seq<SimingId>)
    requires Eligible(S', elected, timeshare) && SameButKind(S, S')
    ensures Eligible(S, elected, timeshare)
  {
    assert SignedIds(S) == SignedIds(S');
  }

  lemma {:induction false} KindFreeValid(S: Simings, S': Simings, now: uint128)
    requires SameButKind(S, S')
    requires forall x :: x in S ==> S[x].adores < MODULUS - 1 && OnLap(S[x], now)
    ensures forall x :: x in S' ==> S'[x].adores < MODULUS - 1 && OnLap(S'[x], now)
  {
  }

  lemma {:induction false} KindFreeTime(S: Simings, S': Simings, processed: seq<SimingId>, now: uint128)
    requires SameButKind(S, S')
    ensures NewTime(now, S, processed) == NewTime(now, S', processed)
  {
  }

  lemma {:induction false} SelectedTime(S: Simings, order: seq<SimingId>, n: nat, now: uint128)
    requires Lists(order, S) && n <= |order|
    ensures n > 0 ==> order[n - 1] in S && NewTime(now, S, order[..n]) == S[order[n - 1]].scheduledTime
    ensures n == 0 ==> NewTime(now, S, order[..n]) == now
  {
  }

  lemma {:induction false} TimeAdvances(S: Simings, order: seq<SimingId>, n: nat, now: uint128)
    requires Lists(order, S) && n <= |order|
    requires forall x :: x in S ==> OnLap(S[x], now)
    ensures now <= NewTime(now, S, order[..n])
  {
  }

  lemma {:induction false} KindFreeOverflow(S: Simings, S': Simings, processed: seq<SimingId>, t: uint128)
    requires SameButKind(S, S')
    ensures Overflows(S, processed, t) <==> Overflows(S', processed, t)
  {
  }

  lemma {:induction false} KindFreeSeats(S: Simings, S': Simings, active: seq<SimingId>)
    requires S'.Keys == S.Keys && forall x :: x in S ==> S'[x].owner == S[x].owner
    ensures Seats(S, active) == Seats(S', active)
  {
  }

  lemma {:induction false} ElectedFits(S: Simings, elected: seq<SimingId>, max: nat)
    requires Electable(S, elected, max) && max <= MAX_SIMINGS
    ensures |elected| <= MAX_SIMINGS && Elements(elected) <= S.Keys
  {
  }

  lemma {:induction false} EligibleFits(S: Simings, elected: seq<SimingId>, timeshare: seq<SimingId>)
    requires Eligible(S, elected, timeshare) && Elements(elected) <= S.Keys
    ensures |elected + timeshare| <= MAX_SIMINGS && Elements(elected + timeshare) <= S.Keys
  {
    forall x | x in Elements(elected + timeshare)
      ensures x in S
    {
      assert x in elected || x in timeshare;
      assert x in Elements(elected) || x in Elements(timeshare);
    }
  }

  lemma {:induction false} DistinctJoin(s: seq<SimingId>, t: seq<SimingId>)
    requires Distinct(s) && Distinct(t) && Elements(s) !! Elements(t)
    ensures Distinct(s + t)
  {
    forall i, j | 0 <= i < j < |s + t|
      ensures (s + t)[i] != (s + t)[j]
    {
      if i < |s| <= j {
        assert s[i] in Elements(s) && t[j - |s|] in Elements(t);
      }
    }
  }

  /** Every round seats as many distinct producers as it can: the elected first, the rest by turns. */
  lemma {:induction false} SelectionSize(S: Simings, elected: seq<SimingId>, timeshare: seq<SimingId>, max: nat)
    requires Electable(S, elected, max) && Eligible(S, elected, timeshare) && max <= MAX_SIMINGS
    ensures Distinct(elected + timeshare)
    ensures |elected| == if |SignedIds(S)| < max then |SignedIds(S)| else max
    ensures |elected + timeshare| == if |SignedIds(S)| < MAX_SIMINGS then |SignedIds(S)| else MAX_SIMINGS
  {
    hide Distinct;
    DistinctCount(elected);
    DistinctJoin(elected, timeshare);
    DistinctCount(elected + timeshare);
    JoinedIds(elected, timeshare);
    SubsetCount(Elements(elected), SignedIds(S));
    SubsetCount(Elements(elected) + Elements(timeshare), SignedIds(S));
    SeatsFilled(S, elected, timeshare, max);
  }

  lemma {:induction false} JoinedIds(s: seq<SimingId>, t: seq<SimingId>)
    ensures Elements(s + t) == Elements(s) + Elements(t)
  {
    assert forall x :: x in s + t <==> x in s || x in t;
  }

  /** Seats stay empty only when there is nobody left to take them. */
  lemma {:induction false} SeatsFilled(S: Simings, elected: seq<SimingId>, timeshare: seq<SimingId>, max: nat)
    requires Electable(S, elected, max) && Eligible(S, elected, timeshare)
    ensures |elected| < max ==> Elements(elected) == SignedIds(S)
    ensures |elected + timeshare| < MAX_SIMINGS ==> Elements(elected) + Elements(timeshare) == SignedIds(S)
  {
    forall x | x in SignedIds(S)
      ensures |elected| < max ==> x in elected
      ensures |elected + timeshare| < MAX_SIMINGS ==> x in elected || x in timeshare
    {
    }
  }
}
