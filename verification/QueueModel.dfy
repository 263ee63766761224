/** The five Redis structures behind `JobQueue` as one value, each queue method as a function on that
    value, and what a whole reap sweep does to it. */
module QueueModel {
  import opened RedisLists

  /** A request id. */
  datatype Id = Id(text: string)

  datatype Config = Config(visibility: int, maxRedeliveries: int)

  /** `beats` holds claim times, `deliveries` the reap counter of an id. */
  datatype Queue = Queue(
    pending: seq<Id>,
    processing: seq<Id>,
    dead: seq<Id>,
    beats: map<Id, int>,
    deliveries: map<Id, int>)

  const EMPTY := Queue([], [], [], map[], map[])

  function Enqueue(q: Queue, id: Id): Queue { q.(pending := PushLeft(q.pending, id)) }

  function Next(q: Queue): Option<Id> {
    if q.pending == [] then None else Some(q.pending[|q.pending| - 1])
  }

  /** BLMOVE pending RIGHT -> processing LEFT, then HSET of the claim time. */
  function Claim(q: Queue, now: int): Queue {
    if q.pending == [] then q
    else
      var id := q.pending[|q.pending| - 1];
      q.(pending := q.pending[..|q.pending| - 1],
         processing := PushLeft(q.processing, id),
         beats := q.beats[id := now])
  }

  function Ack(q: Queue, id: Id): Queue {
    q.(processing := RemoveFirst(q.processing, id), beats := q.beats - {id}, deliveries := q.deliveries - {id})
  }

  /** Age of a claim; an id without a heartbeat is given the age `missing`. */
  function Age(beats: map<Id, int>, now: int, id: Id, missing: int): int {
    if id in beats then now - beats[id] else missing
  }

  predicate Expired(cfg: Config, beats: map<Id, int>, now: int, id: Id) {
    Age(beats, now, id, cfg.visibility + 1) >= cfg.visibility
  }

  function Delivered(q: Queue, id: Id): int { if id in q.deliveries then q.deliveries[id] else 0 }

  /** One iteration of the reap loop. */
  function SweepOne(cfg: Config, q: Queue, now: int, id: Id): Queue {
    if !Expired(cfg, q.beats, now, id) || id !in q.processing then q
    else
      var n := Delivered(q, id) + 1;
      var taken := q.(processing := RemoveFirst(q.processing, id), beats := q.beats - {id});
      if n > cfg.maxRedeliveries then
        taken.(dead := PushLeft(q.dead, id), deliveries := q.deliveries - {id})
      else
        taken.(pending := PushLeft(q.pending, id), deliveries := q.deliveries[id := n])
  }

  function Sweep(cfg: Config, q: Queue, now: int, snapshot: seq<Id>): Queue
    decreases |snapshot|
  {
    if snapshot == [] then q else Sweep(cfg, SweepOne(cfg, q, now, snapshot[0]), now, snapshot[1..])
  }

  function Reap(cfg: Config, q: Queue, now: int): Queue { Sweep(cfg, q, now, q.processing) }

  function RequeueFromDead(q: Queue, id: Id): Queue {
    if id !in q.dead then q
    else q.(dead := RemoveAll(q.dead, id), deliveries := q.deliveries - {id}, pending := PushLeft(q.pending, id))
  }

  /** The in-flight ids at least `threshold` old, in list order, with their ages. */
  function Stuck(beats: map<Id, int>, processing: seq<Id>, now: int, threshold: int): seq<(Id, int)> {
    if processing == [] then []
    else
      var age := Age(beats, now, processing[0], threshold + 1);
      (if age >= threshold then [(processing[0], age)] else []) + Stuck(beats, processing[1..], now, threshold)
  }

  // ----- a sweep seen as a whole -----

  /** The entries of `s` whose heartbeat is younger than the visibility timeout, in order. */
  function Fresh(cfg: Config, beats: map<Id, int>, now: int, s: seq<Id>): seq<Id> {
    if s == [] then []
    else (if Expired(cfg, beats, now, s[0]) then [] else [s[0]]) + Fresh(cfg, beats, now, s[1..])
  }

  /** The expired entries that still have (`park == false`), or no longer have, a redelivery left. */
  function Due(cfg: Config, q: Queue, now: int, s: seq<Id>, park: bool): seq<Id> {
    if s == [] then []
    else
      (if Expired(cfg, q.beats, now, s[0]) && (Delivered(q, s[0]) + 1 > cfg.maxRedeliveries) == park
       then [s[0]] else [])
      + Due(cfg, q, now, s[1..], park)
  }

  lemma {:induction false} FreshIgnoresExpired(cfg: Config, beats: map<Id, int>, now: int, s: seq<Id>, id: Id)
    requires Expired(cfg, beats, now, id)
    ensures Fresh(cfg, beats - {id}, now, s) == Fresh(cfg, beats, now, s)
  {
    if s != [] { FreshIgnoresExpired(cfg, beats, now, s[1..], id); }
  }

  lemma SweepOneTakesLeftmost(cfg: Config, q: Queue, now: int, kept: seq<Id>, id: Id, rest: seq<Id>)
    requires q.processing == kept + [id] + rest && id !in kept && Expired(cfg, q.beats, now, id)
    ensures SweepOne(cfg, q, now, id).processing == kept + rest
    ensures SweepOne(cfg, q, now, id).beats == q.beats - {id}
  {
    assert q.processing[|kept|] == id;
    RemoveFirstAfterPrefix(kept, id, rest);
  }

  /** Sweeping any part of the processing list, from the left, keeps exactly its fresh entries in order:
      the swept list need not be free of repeated ids. */
  lemma {:induction false} SweepKeepsFresh(cfg: Config, q: Queue, now: int, kept: seq<Id>, snapshot: seq<Id>)
    requires q.processing == kept + snapshot
    requires forall id :: id in kept ==> !Expired(cfg, q.beats, now, id)
    ensures Sweep(cfg, q, now, snapshot).processing == kept + Fresh(cfg, q.beats, now, snapshot)
    decreases |snapshot|
  {
    if snapshot != [] {
      var id, rest := snapshot[0], snapshot[1..];
      assert q.processing == kept + [id] + rest;
      if Expired(cfg, q.beats, now, id) {
        SweepOneTakesLeftmost(cfg, q, now, kept, id, rest);
        SweepKeepsFresh(cfg, SweepOne(cfg, q, now, id), now, kept, rest);
        FreshIgnoresExpired(cfg, q.beats, now, rest, id);
      } else {
        SweepKeepsFresh(cfg, q, now, kept + [id], rest);
        assert kept + [id] + Fresh(cfg, q.beats, now, rest) == kept + ([id] + Fresh(cfg, q.beats, now, rest));
      }
    }
  }

  lemma {:induction false} FreshAreFresh(cfg: Config, beats: map<Id, int>, now: int, s: seq<Id>, id: Id)
    ensures id in Fresh(cfg, beats, now, s) <==> id in s && !Expired(cfg, beats, now, id)
  {
    if s != [] { FreshAreFresh(cfg, beats, now, s[1..], id); }
  }

  lemma {:induction false} SweepBeatsExactly(cfg: Config, q: Queue, now: int, snapshot: seq<Id>, id: Id)
    requires Count(snapshot, id) <= Count(q.processing, id)
    ensures var beats := Sweep(cfg, q, now, snapshot).beats;
            && (id in beats <==> id in q.beats && !(id in snapshot && now - q.beats[id] >= cfg.visibility))
            && (id in beats ==> beats[id] == q.beats[id])
    decreases |snapshot|
  {
    if snapshot != [] {
      var x, rest := snapshot[0], snapshot[1..];
      assert snapshot == PushLeft(rest, x);
      PushLeftCount(rest, x, id);
      RemoveFirstCount(q.processing, x, id);
      CountIn(q.processing, x);
      CountIn(rest, id);
      if x == id { SweepOneBeat(cfg, q, now, id); }
      SweepBeatsExactly(cfg, SweepOne(cfg, q, now, x), now, rest, id);
    }
  }

  lemma SweepOneBeat(cfg: Config, q: Queue, now: int, id: Id)
    requires id in q.processing
    ensures id in SweepOne(cfg, q, now, id).beats <==> id in q.beats && now - q.beats[id] < cfg.visibility
  {
  }

  /** A reap forgets exactly the claim times of the jobs it takes, and changes none that it keeps. */
  lemma ReapForgetsTakenClaims(cfg: Config, q: Queue, now: int, id: Id)
    ensures var beats := Reap(cfg, q, now).beats;
            && (id in beats <==> id in q.beats && !(id in q.processing && now - q.beats[id] >= cfg.visibility))
            && (id in beats ==> beats[id] == q.beats[id])
  {
    SweepBeatsExactly(cfg, q, now, q.processing, id);
  }

  /** A job in flight survives a reap exactly when its claim time is known and younger than the visibility timeout. */
  lemma ReapSparesExactlyTheYoung(cfg: Config, q: Queue, now: int, id: Id)
    ensures id in Reap(cfg, q, now).processing
            <==> id in q.processing && id in q.beats && now - q.beats[id] < cfg.visibility
  {
    ReapKeepsExactlyFresh(cfg, q, now);
    FreshAreFresh(cfg, q.beats, now, q.processing, id);
  }

  /** For every queue, repeated ids included: a reap leaves in processing exactly the fresh entries, in order. */
  lemma ReapKeepsExactlyFresh(cfg: Config, q: Queue, now: int)
    ensures Reap(cfg, q, now).processing == Fresh(cfg, q.beats, now, q.processing)
  {
    assert q.processing == [] + q.processing;
    SweepKeepsFresh(cfg, q, now, [], q.processing);
  }

  lemma {:induction false} DueIgnoresOthers(cfg: Config, q: Queue, q1: Queue, now: int, s: seq<Id>, id: Id, park: bool)
    requires id !in s
    requires forall x :: x != id ==> (x in q.beats <==> x in q1.beats) && (x in q.beats ==> q.beats[x] == q1.beats[x])
    requires forall x :: x != id ==> Delivered(q, x) == Delivered(q1, x)
    ensures Due(cfg, q1, now, s, park) == Due(cfg, q, now, s, park)
  {
    if s != [] {
      assert s[0] in s && forall x :: x in s[1..] ==> x in s;
      DueIgnoresOthers(cfg, q, q1, now, s[1..], id, park);
    }
  }

  lemma SweepOneKeepsOthers(cfg: Config, q: Queue, now: int, id: Id)
    ensures var q1 := SweepOne(cfg, q, now, id);
            forall x :: x != id ==>
              && (x in q.processing ==> x in q1.processing)
              && (x in q.beats <==> x in q1.beats) && (x in q.beats ==> q.beats[x] == q1.beats[x])
              && Delivered(q, x) == Delivered(q1, x)
  {
    forall x | x != id && x in q.processing ensures x in RemoveFirst(q.processing, id) {
      RemoveFirstCount(q.processing, id, x);
    }
  }

  lemma {:induction false} SweepPushes(cfg: Config, q: Queue, now: int, snapshot: seq<Id>)
    requires Distinct(snapshot) && forall id :: id in snapshot ==> id in q.processing
    ensures Sweep(cfg, q, now, snapshot).pending == PushAll(Due(cfg, q, now, snapshot, false), q.pending)
    ensures Sweep(cfg, q, now, snapshot).dead == PushAll(Due(cfg, q, now, snapshot, true), q.dead)
    decreases |snapshot|
  {
    if snapshot != [] {
      var id, rest := snapshot[0], snapshot[1..];
      var q1 := SweepOne(cfg, q, now, id);
      assert id !in rest;
      SweepOneKeepsOthers(cfg, q, now, id);
      assert forall x :: x in rest ==> x in snapshot;
      SweepPushes(cfg, q1, now, rest);
      forall park { DueIgnoresOthers(cfg, q, q1, now, rest, id, park); }
      PushAllCons(id, Due(cfg, q, now, rest, false), q.pending);
      PushAllCons(id, Due(cfg, q, now, rest, true), q.dead);
      assert forall park :: [] + Due(cfg, q, now, rest, park) == Due(cfg, q, now, rest, park);
    }
  }

  /** With one copy per id: a reap sends the expired ids that still have a redelivery to the FIFO tail of
      pending in reverse snapshot order, and the others to the head of the dead list likewise. */
  lemma ReapPartitions(cfg: Config, q: Queue, now: int)
    requires Distinct(q.processing)
    ensures Reap(cfg, q, now).pending == Reverse(Due(cfg, q, now, q.processing, false)) + q.pending
    ensures Reap(cfg, q, now).dead == Reverse(Due(cfg, q, now, q.processing, true)) + q.dead
  {
    SweepPushes(cfg, q, now, q.processing);
    PushAllReverses(Due(cfg, q, now, q.processing, false), q.pending);
    PushAllReverses(Due(cfg, q, now, q.processing, true), q.dead);
  }

  /** A job that survives a reap is never reported as stuck at the same clock by any threshold no smaller
      than the visibility timeout. */
  lemma {:induction false} StuckOfFresh(cfg: Config, beats: map<Id, int>, s: seq<Id>, now: int, threshold: int)
    requires threshold >= cfg.visibility
    requires forall id :: id in s ==> !Expired(cfg, beats, now, id)
    ensures Stuck(beats, s, now, threshold) == []
  {
    if s != [] {
      assert s[0] in s && forall x :: x in s[1..] ==> x in s;
      StuckOfFresh(cfg, beats, s[1..], now, threshold);
    }
  }

  /** Every stuck report is an in-flight job that is old or has no heartbeat, and every such job is reported. */
  lemma {:induction false} StuckExactly(beats: map<Id, int>, s: seq<Id>, now: int, threshold: int, id: Id)
    ensures (exists age :: (id, age) in Stuck(beats, s, now, threshold)) <==>
            id in s && (id !in beats || now - beats[id] >= threshold)
  {
    if s != [] {
      StuckExactly(beats, s[1..], now, threshold, id);
      var rest := Stuck(beats, s[1..], now, threshold);
      var all := Stuck(beats, s, now, threshold);
      var age := Age(beats, now, s[0], threshold + 1);
      assert all == (if age >= threshold then [(s[0], age)] else []) + rest;
      assert forall p :: p in rest ==> p in all;
      if s[0] == id && age >= threshold { assert (id, age) in all; }
      forall a | (id, a) in all && !((id, a) in rest) ensures id == s[0] && age >= threshold {}
    }
  }

  /** The report works on any two parts of the list separately, so it is in list order; one job is reported, with its
      age, exactly when it is that old, and a job without a claim time as one older than the threshold. */
  lemma {:induction false} StuckInParts(beats: map<Id, int>, s: seq<Id>, t: seq<Id>, now: int, threshold: int)
    ensures Stuck(beats, s + t, now, threshold) == Stuck(beats, s, now, threshold) + Stuck(beats, t, now, threshold)
    ensures forall id :: Stuck(beats, [id], now, threshold) ==
                         if id !in beats then [(id, threshold + 1)]
                         else if now - beats[id] >= threshold then [(id, now - beats[id])] else []
  {
    if s == [] {
      assert s + t == t;
    } else {
      assert (s + t)[1..] == s[1..] + t;
      StuckInParts(beats, s[1..], t, now, threshold);
      var age := Age(beats, now, s[0], threshold + 1);
      var first := if age >= threshold then [(s[0], age)] else [];
      Reassociate(first, Stuck(beats, s[1..], now, threshold), Stuck(beats, t, now, threshold));
    }
  }

  /** A replayed job waits where a newly enqueued one would: behind everything that is pending. */
  lemma ReplayGoesToTheTail(q: Queue, id: Id)
    requires id in q.dead
    ensures RequeueFromDead(q, id).pending == Enqueue(q, id).pending == [id] + q.pending
  {
  }

  /** An ack forgets the job and touches nothing of any other. */
  lemma AckForgets(q: Queue, id: Id)
    ensures var q1 := Ack(q, id);
            && id !in q1.beats && id !in q1.deliveries
            && (forall x :: x != id ==>
                  (x in q1.beats <==> x in q.beats) && (x in q.beats ==> q1.beats[x] == q.beats[x]))
            && (forall x :: x != id ==> Delivered(q1, x) == Delivered(q, x))
            && q1.pending == q.pending && q1.dead == q.dead
  {
  }

  lemma {:induction false} SweepBeats(cfg: Config, q: Queue, now: int, snapshot: seq<Id>, id: Id)
    ensures !Expired(cfg, q.beats, now, id) ==>
            id in Sweep(cfg, q, now, snapshot).beats && Sweep(cfg, q, now, snapshot).beats[id] == q.beats[id]
    decreases |snapshot|
  {
    if snapshot != [] { SweepBeats(cfg, SweepOne(cfg, q, now, snapshot[0]), now, snapshot[1..], id); }
  }

  /** Right after a reap nothing is stuck. */
  lemma NothingStuckAfterReap(cfg: Config, q: Queue, now: int, threshold: int)
    requires threshold >= cfg.visibility
    ensures var r := Reap(cfg, q, now); Stuck(r.beats, r.processing, now, threshold) == []
  {
    var r := Reap(cfg, q, now);
    ReapKeepsExactlyFresh(cfg, q, now);
    forall id | id in r.processing ensures !Expired(cfg, r.beats, now, id) {
      FreshAreFresh(cfg, q.beats, now, q.processing, id);
      SweepBeats(cfg, q, now, q.processing, id);
    }
    StuckOfFresh(cfg, r.beats, r.processing, now, threshold);
  }

  // ----- one id's share of the queue -----

  /** What the two hashes hold of a single id; a missing counter reads 0. */
  datatype Mark = Mark(beat: Option<int>, delivered: int)

  const UNMARKED := Mark(None, 0)

  /** What the queue holds of a single id: copies per list, and its hash entries. */
  datatype Slot = Slot(pending: nat, processing: nat, dead: nat, mark: Mark)
  {
    predicate Nowhere() { pending == 0 && processing == 0 && dead == 0 }

    predicate AtMostOnce() { pending + processing + dead <= 1 }

    predicate AsManyAs(that: Slot) { pending + processing + dead == that.pending + that.processing + that.dead }
  }

  function MarkOf(q: Queue, id: Id): Mark {
    Mark(if id in q.beats then Some(q.beats[id]) else None, Delivered(q, id))
  }

  function SlotOf(q: Queue, id: Id): Slot {
    Slot(Count(q.pending, id), Count(q.processing, id), Count(q.dead, id), MarkOf(q, id))
  }

  function SlotEnqueue(v: Slot): Slot { v.(pending := v.pending + 1) }

  function SlotClaim(v: Slot, now: int): Slot {
    if v.pending == 0 then v
    else v.(pending := v.pending - 1, processing := v.processing + 1, mark := v.mark.(beat := Some(now)))
  }

  function SlotAck(v: Slot): Slot {
    v.(processing := if v.processing == 0 then 0 else v.processing - 1, mark := UNMARKED)
  }

  predicate SlotExpired(cfg: Config, v: Slot, now: int) {
    v.mark.beat.None? || now - v.mark.beat.value >= cfg.visibility
  }

  /** Move one copy out of processing. */
  function SlotMove(cfg: Config, v: Slot): Slot
    requires v.processing > 0
  {
    var n := v.mark.delivered + 1;
    if n > cfg.maxRedeliveries then Slot(v.pending, v.processing - 1, v.dead + 1, UNMARKED)
    else Slot(v.pending + 1, v.processing - 1, v.dead, Mark(None, n))
  }

  function SlotMoves(cfg: Config, v: Slot, k: nat): Slot
    requires k <= v.processing
    decreases k
  {
    if k == 0 then v else SlotMoves(cfg, SlotMove(cfg, v), k - 1)
  }

  function SlotReap(cfg: Config, v: Slot, now: int): Slot {
    if SlotExpired(cfg, v, now) then SlotMoves(cfg, v, v.processing) else v
  }

  /** A replay merges all dead copies into one pending copy. */
  function SlotReplay(v: Slot): Slot {
    if v.dead == 0 then v
    else v.(dead := 0, pending := v.pending + 1, mark := v.mark.(delivered := 0))
  }

  lemma EnqueueSlot(q: Queue, x: Id, id: Id)
    ensures SlotOf(Enqueue(q, x), id) == if x == id then SlotEnqueue(SlotOf(q, id)) else SlotOf(q, id)
  {
  }

  lemma ClaimSlot(q: Queue, now: int, id: Id)
    ensures Next(q) == Some(id) ==>
              Count(q.pending, id) > 0 && SlotOf(Claim(q, now), id) == SlotClaim(SlotOf(q, id), now)
    ensures Next(q) != Some(id) ==> SlotOf(Claim(q, now), id) == SlotOf(q, id)
  {
    if q.pending != [] {
      var n := |q.pending| - 1;
      assert q.pending == q.pending[..n] + [q.pending[n]];
    }
  }

  lemma AckSlot(q: Queue, x: Id, id: Id)
    ensures SlotOf(Ack(q, x), id) == if x == id then SlotAck(SlotOf(q, id)) else SlotOf(q, id)
  {
    RemoveFirstCount(q.processing, x, id);
  }

  lemma ReplaySlot(q: Queue, x: Id, id: Id)
    ensures SlotOf(RequeueFromDead(q, x), id) == if x == id then SlotReplay(SlotOf(q, id)) else SlotOf(q, id)
  {
    RemoveAllCount(q.dead, x, id);
    PushLeftCount(q.pending, x, id);
  }

  lemma SweepOneOther(cfg: Config, q: Queue, now: int, x: Id, id: Id)
    requires x != id
    ensures SlotOf(SweepOne(cfg, q, now, x), id) == SlotOf(q, id)
  {
    RemoveFirstCount(q.processing, x, id);
    PushLeftCount(q.pending, x, id);
    PushLeftCount(q.dead, x, id);
  }

  lemma SweepOneSelf(cfg: Config, q: Queue, now: int, id: Id)
    requires Count(q.processing, id) > 0
    ensures SlotOf(SweepOne(cfg, q, now, id), id) ==
            (if SlotExpired(cfg, SlotOf(q, id), now) then SlotMove(cfg, SlotOf(q, id)) else SlotOf(q, id))
  {
    RemoveFirstCount(q.processing, id, id);
    PushLeftCount(q.pending, id, id);
    PushLeftCount(q.dead, id, id);
    assert Expired(cfg, q.beats, now, id) == SlotExpired(cfg, SlotOf(q, id), now);
  }

  predicate SweptTo(cfg: Config, v: Slot, now: int, k: nat, v1: Slot)
    requires k <= v.processing
  {
    v1 == if SlotExpired(cfg, v, now) then SlotMoves(cfg, v, k) else v
  }

  lemma SweptOnce(cfg: Config, v: Slot, now: int, k: nat, v1: Slot)
    requires 0 < k <= v.processing
    requires var mid := if SlotExpired(cfg, v, now) then SlotMove(cfg, v) else v;
             SweptTo(cfg, mid, now, k - 1, v1)
    ensures SweptTo(cfg, v, now, k, v1)
  {
    if SlotExpired(cfg, v, now) {
      assert SlotMoves(cfg, v, k) == SlotMoves(cfg, SlotMove(cfg, v), k - 1);
    }
  }

  /** Seen from one id, a sweep either touches nothing or moves as many copies as the snapshot shows, one by one. */
  lemma {:induction false} SweepSlot(cfg: Config, q: Queue, now: int, snapshot: seq<Id>, id: Id)
    requires Count(snapshot, id) <= Count(q.processing, id)
    ensures SweptTo(cfg, SlotOf(q, id), now, Count(snapshot, id), SlotOf(Sweep(cfg, q, now, snapshot), id))
    decreases |snapshot|
  {
    if snapshot != [] {
      var x, rest := snapshot[0], snapshot[1..];
      var q1 := SweepOne(cfg, q, now, x);
      assert snapshot == PushLeft(rest, x);
      PushLeftCount(rest, x, id);
      if x == id {
        SweepOneSelf(cfg, q, now, id);
        SweepSlot(cfg, q1, now, rest, id);
        SweptOnce(cfg, SlotOf(q, id), now, Count(snapshot, id), SlotOf(Sweep(cfg, q, now, snapshot), id));
      } else {
        SweepOneOther(cfg, q, now, x, id);
        SweepSlot(cfg, q1, now, rest, id);
      }
    }
  }

  /** The reap loop, for every id separately. */
  lemma ReapSlot(cfg: Config, q: Queue, now: int, id: Id)
    ensures SlotOf(Reap(cfg, q, now), id) == SlotReap(cfg, SlotOf(q, id), now)
  {
    SweepSlot(cfg, q, now, q.processing, id);
  }

  lemma {:induction false} MovesConserve(cfg: Config, v: Slot, k: nat)
    requires k <= v.processing
    ensures SlotMoves(cfg, v, k).AsManyAs(v)
    ensures SlotMoves(cfg, v, k).processing == v.processing - k
    ensures SlotMoves(cfg, v, k).pending >= v.pending && SlotMoves(cfg, v, k).dead >= v.dead
    decreases k
  {
    if k > 0 { MovesConserve(cfg, SlotMove(cfg, v), k - 1); }
  }

  /** A reap neither loses nor duplicates a copy of any id. */
  lemma ReapConserves(cfg: Config, q: Queue, now: int)
    ensures var r := Reap(cfg, q, now);
            multiset(r.pending) + multiset(r.processing) + multiset(r.dead)
            == multiset(q.pending) + multiset(q.processing) + multiset(q.dead)
  {
    var r := Reap(cfg, q, now);
    forall id: Id
      ensures (multiset(r.pending) + multiset(r.processing) + multiset(r.dead))[id]
              == (multiset(q.pending) + multiset(q.processing) + multiset(q.dead))[id]
    {
      ReapSlot(cfg, q, now, id);
      MovesConserve(cfg, SlotOf(q, id), SlotOf(q, id).processing);
      assert SlotOf(r, id).AsManyAs(SlotOf(q, id));
    }
  }
}
