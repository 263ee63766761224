/** The commands of one process, taken without interruption, are the queue method they spell out. */
module MethodCommands {
  import opened RedisLists
  import M = QueueModel
  import opened RedisInterleaving

  /** The next `k` commands of an agent, nobody else moving. */
  function Alone(cfg: M.Config, q: M.Queue, a: Agent, now: int, k: nat): (M.Queue, Agent)
    decreases k
  {
    if k == 0 then (q, a)
    else
      var (q1, a1) := NextCommand(cfg, q, a, now);
      Alone(cfg, q1, a1, now, k - 1)
  }

  lemma {:induction false} AloneThenAlone(cfg: M.Config, q: M.Queue, a: Agent, now: int, k: nat, m: nat)
    ensures var (q1, a1) := Alone(cfg, q, a, now, k); Alone(cfg, q, a, now, k + m) == Alone(cfg, q1, a1, now, m)
    decreases k
  {
    if k > 0 {
      var (q1, a1) := NextCommand(cfg, q, a, now);
      AloneThenAlone(cfg, q1, a1, now, k - 1, m);
    }
  }

  /** One id of a sweep: HGET, and if its claim has expired LREM, HDEL, HINCRBY, LPUSH and perhaps a last HDEL. */
  lemma SweepOneAlone(cfg: M.Config, q: M.Queue, t: int, id: M.Id, rest: seq<M.Id>, now: int) returns (k: nat)
    ensures Alone(cfg, q, ReapNext(t, [id] + rest), now, k) == (M.SweepOne(cfg, q, t, id), ReapNext(t, rest))
  {
    assert ([id] + rest)[1..] == rest;
    if !M.Expired(cfg, q.beats, t, id) {
      k := 1;
      assert Alone(cfg, q, ReapNext(t, [id] + rest), now, 1) == Alone(cfg, q, ReapNext(t, rest), now, 0);
    } else if id !in q.processing {
      k := 2;
      assert Alone(cfg, q, ReapNext(t, [id] + rest), now, 2) == Alone(cfg, q, ReapStale(t, id, rest), now, 1);
      assert Alone(cfg, q, ReapStale(t, id, rest), now, 1) == Alone(cfg, q, ReapNext(t, rest), now, 0);
    } else {
      k := TakeAlone(cfg, q, t, id, rest, now);
      assert Alone(cfg, q, ReapNext(t, [id] + rest), now, k + 1) == Alone(cfg, q, ReapStale(t, id, rest), now, k);
      k := k + 1;
    }
  }

  lemma TakeAlone(cfg: M.Config, q: M.Queue, t: int, id: M.Id, rest: seq<M.Id>, now: int) returns (k: nat)
    requires id in q.processing && M.Expired(cfg, q.beats, t, id)
    ensures Alone(cfg, q, ReapStale(t, id, rest), now, k) == (M.SweepOne(cfg, q, t, id), ReapNext(t, rest))
  {
    var n := M.Delivered(q, id) + 1;
    var q1 := q.(processing := RemoveFirst(q.processing, id));
    var q2 := q1.(beats := q.beats - {id});
    var q3 := q2.(deliveries := q.deliveries[id := n]);
    assert Alone(cfg, q, ReapStale(t, id, rest), now, 3) == Alone(cfg, q1, ReapHeld(t, id, rest), now, 2);
    assert Alone(cfg, q1, ReapHeld(t, id, rest), now, 2) == Alone(cfg, q2, ReapCleared(t, id, rest), now, 1);
    assert Alone(cfg, q2, ReapCleared(t, id, rest), now, 1) == Alone(cfg, q3, ReapCounted(t, id, n, rest), now, 0);
    var m := PushAlone(cfg, q3, t, id, n, rest, now);
    AloneThenAlone(cfg, q, ReapStale(t, id, rest), now, 3, m);
    assert q3.deliveries - {id} == q.deliveries - {id};
    k := 3 + m;
  }

  lemma PushAlone(cfg: M.Config, q: M.Queue, t: int, id: M.Id, n: int, rest: seq<M.Id>, now: int) returns (k: nat)
    ensures Alone(cfg, q, ReapCounted(t, id, n, rest), now, k)
            == (if n > cfg.maxRedeliveries
                then q.(dead := PushLeft(q.dead, id), deliveries := q.deliveries - {id})
                else q.(pending := PushLeft(q.pending, id)), ReapNext(t, rest))
  {
    if n > cfg.maxRedeliveries {
      var q1 := q.(dead := PushLeft(q.dead, id));
      assert Alone(cfg, q, ReapCounted(t, id, n, rest), now, 2) == Alone(cfg, q1, ReapParked(t, id, rest), now, 1);
      assert Alone(cfg, q1, ReapParked(t, id, rest), now, 1)
          == Alone(cfg, q1.(deliveries := q.deliveries - {id}), ReapNext(t, rest), now, 0);
      k := 2;
    } else {
      var q1 := q.(pending := PushLeft(q.pending, id));
      assert Alone(cfg, q, ReapCounted(t, id, n, rest), now, 1) == Alone(cfg, q1, ReapNext(t, rest), now, 0);
      k := 1;
    }
  }

  lemma {:induction false} SweepAlone(cfg: M.Config, q: M.Queue, t: int, snapshot: seq<M.Id>, now: int)
    returns (k: nat)
    ensures Alone(cfg, q, ReapNext(t, snapshot), now, k) == (M.Sweep(cfg, q, t, snapshot), Idle)
    decreases |snapshot|
  {
    if snapshot == [] {
      assert Alone(cfg, q, ReapNext(t, snapshot), now, 1) == Alone(cfg, q, Idle, now, 0);
      k := 1;
    } else {
      var id, rest := snapshot[0], snapshot[1..];
      assert snapshot == [id] + rest;
      var first := SweepOneAlone(cfg, q, t, id, rest, now);
      var more := SweepAlone(cfg, M.SweepOne(cfg, q, t, id), t, rest, now);
      AloneThenAlone(cfg, q, ReapNext(t, snapshot), now, first, more);
      k := first + more;
    }
  }

  // ----- in the machine of all agents -----

  function Uninterrupted(cfg: M.Config, s: State, i: nat, now: int, k: nat): State
    decreases k
  {
    if k == 0 then s else Uninterrupted(cfg, Apply(cfg, s, Advance(i, now)), i, now, k - 1)
  }

  lemma {:induction false} UninterruptedIsAlone(cfg: M.Config, s: State, i: nat, now: int, k: nat)
    requires i < |s.agents|
    ensures var (q, a) := Alone(cfg, s.q, s.agents[i], now, k);
            Uninterrupted(cfg, s, i, now, k) == State(q, s.agents[i := a])
    decreases k
  {
    if k == 0 {
      assert s.agents[i := s.agents[i]] == s.agents;
    } else {
      var s1 := Apply(cfg, s, Advance(i, now));
      UninterruptedIsAlone(cfg, s1, i, now, k - 1);
      var a := Alone(cfg, s1.q, s1.agents[i], now, k - 1).1;
      assert s1.agents[i := a] == s.agents[i := a];
    }
  }

  predicate Free(s: State, i: nat) { i < |s.agents| && s.agents[i].Idle? }

  /** The state after agent `i` did a whole method on its own. */
  predicate Did(s: State, t: State, i: nat, q: M.Queue, a: Agent)
    requires i < |s.agents|
  {
    t == State(q, s.agents[i := a])
  }

  /** LRANGE and the sweep are `reap`. */
  lemma ReapIsItsCommands(cfg: M.Config, s: State, i: nat, t: int, now: int) returns (k: nat)
    requires Free(s, i)
    ensures Did(s, Uninterrupted(cfg, Apply(cfg, s, ReapScan(i, t)), i, now, k), i, M.Reap(cfg, s.q, t), Idle)
  {
    var s1 := Apply(cfg, s, ReapScan(i, t));
    k := SweepAlone(cfg, s.q, t, s.q.processing, now);
    UninterruptedIsAlone(cfg, s1, i, now, k);
    assert s1.agents[i := Idle] == s.agents[i := Idle];
  }

  /** BLMOVE and HSET are `claim`. */
  lemma ClaimIsItsCommands(cfg: M.Config, s: State, i: nat, now: int)
    requires Free(s, i) && s.q.pending != []
    ensures Did(s, Uninterrupted(cfg, Apply(cfg, s, ClaimMove(i)), i, now, 1), i,
                M.Claim(s.q, now), Working(M.Next(s.q).value))
  {
    var s1, id := Apply(cfg, s, ClaimMove(i)), M.Next(s.q).value;
    UninterruptedIsAlone(cfg, s1, i, now, 1);
    assert Alone(cfg, s1.q, Claimed(id), now, 1)
        == Alone(cfg, s1.q.(beats := s1.q.beats[id := now]), Working(id), now, 0);
    assert s1.agents[i := Working(id)] == s.agents[i := Working(id)];
  }

  /** LREM and two HDELs are `ack`. */
  lemma AckIsItsCommands(cfg: M.Config, s: State, i: nat, id: M.Id, now: int)
    requires i < |s.agents| && s.agents[i] == Working(id)
    ensures Did(s, Uninterrupted(cfg, Apply(cfg, s, AckRemove(i)), i, now, 2), i, M.Ack(s.q, id), Idle)
  {
    var s1 := Apply(cfg, s, AckRemove(i));
    UninterruptedIsAlone(cfg, s1, i, now, 2);
    var q2 := s1.q.(beats := s1.q.beats - {id});
    assert Alone(cfg, s1.q, AckBeat(id), now, 2) == Alone(cfg, q2, AckCount(id), now, 1);
    assert Alone(cfg, q2, AckCount(id), now, 1) == Alone(cfg, M.Ack(s.q, id), Idle, now, 0);
    assert s1.agents[i := Idle] == s.agents[i := Idle];
  }

  /** LREM, HDEL and LPUSH are `requeue_from_dead`; if nothing was removed the rest is skipped. */
  lemma ReplayIsItsCommands(cfg: M.Config, s: State, i: nat, id: M.Id, now: int)
    requires Free(s, i)
    ensures Did(s, Uninterrupted(cfg, Apply(cfg, s, ReplayRemove(i, id)), i, now, 2), i,
                M.RequeueFromDead(s.q, id), Idle)
  {
    var s1 := Apply(cfg, s, ReplayRemove(i, id));
    UninterruptedIsAlone(cfg, s1, i, now, 2);
    assert s1.agents[i := Idle] == s.agents[i := Idle];
    if id in s.q.dead {
      var q2 := s1.q.(deliveries := s1.q.deliveries - {id});
      assert Alone(cfg, s1.q, ReplayHeld(id), now, 2) == Alone(cfg, q2, ReplayCleared(id), now, 1);
      assert Alone(cfg, q2, ReplayCleared(id), now, 1) == Alone(cfg, M.RequeueFromDead(s.q, id), Idle, now, 0);
    } else {
      assert Alone(cfg, s1.q, Idle, now, 2) == Alone(cfg, s1.q, Idle, now, 1);
      assert Alone(cfg, s1.q, Idle, now, 1) == Alone(cfg, s1.q, Idle, now, 0);
    }
  }
}
