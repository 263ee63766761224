/** The reliable queue as the program has it: five structures updated in place, an explicit clock. */
module JobQueueClass {
  import opened RedisLists
  import M = QueueModel

  class JobQueue {
    const cfg: M.Config
    var pending: seq<M.Id>
    var processing: seq<M.Id>
    var dead: seq<M.Id>
    var beats: map<M.Id, int>
    var deliveries: map<M.Id, int>

    ghost function State(): M.Queue
      reads this
    {
      M.Queue(pending, processing, dead, beats, deliveries)
    }

    constructor (cfg: M.Config)
      ensures this.cfg == cfg && State() == M.EMPTY
    {
      this.cfg := cfg;
      pending, processing, dead, beats, deliveries := [], [], [], map[], map[];
    }

    method Enqueue(id: M.Id)
      modifies this
      ensures State() == M.Enqueue(old(State()), id)
    {
      pending := [id] + pending;
    }

    /** Takes the oldest pending job; `None` when the wait for one times out. */
    method Claim(now: int) returns (r: Option<M.Id>)
      modifies this
      ensures r == M.Next(old(State()))
      ensures State() == M.Claim(old(State()), now)
      ensures r.None? <==> old(pending) == []
      ensures r.Some? ==> r.value in processing && r.value in beats && beats[r.value] == now
    {
      if pending == [] {
        return None;
      }
      var id := pending[|pending| - 1];
      pending := pending[..|pending| - 1];
      processing := [id] + processing;
      beats := beats[id := now];
      return Some(id);
    }

    method Ack(id: M.Id)
      modifies this
      ensures State() == M.Ack(old(State()), id)
      ensures Count(processing, id) == Max(Count(old(processing), id) - 1, 0)
      ensures id !in beats && id !in deliveries && pending == old(pending) && dead == old(dead)
    {
      RemoveFirstCount(processing, id, id);
      processing := RemoveFirst(processing, id);
      beats := beats - {id};
      deliveries := deliveries - {id};
    }

    /** Sweep the processing list: exactly the fresh entries stay, in order; the returned pair counts the
        copies that went back to pending and to the dead list; no copy is lost or made up. */
    method Reap(now: int) returns (redelivered: nat, parked: nat)
      modifies this
      ensures State() == M.Reap(cfg, old(State()), now)
      ensures processing == M.Fresh(cfg, old(beats), now, old(processing))
      ensures forall id :: id in processing <==>
                           id in old(processing) && id in old(beats) && now - old(beats)[id] < cfg.visibility
      ensures redelivered == |pending| - |old(pending)| && parked == |dead| - |old(dead)|
      ensures multiset(pending) + multiset(processing) + multiset(dead)
              == old(multiset(pending) + multiset(processing) + multiset(dead))
    {
      redelivered, parked := 0, 0;
      var snapshot := processing;
      var i := 0;
      while i < |snapshot|
        invariant 0 <= i <= |snapshot|
        invariant M.Sweep(cfg, State(), now, snapshot[i..]) == M.Reap(cfg, old(State()), now)
        invariant redelivered == |pending| - |old(pending)| && parked == |dead| - |old(dead)|
      {
        var id := snapshot[i];
        ghost var before := State();
        assert snapshot[i..][0] == id && snapshot[i..][1..] == snapshot[i + 1..];
        i := i + 1;
        var age := if id in beats then now - beats[id] else cfg.visibility + 1;
        if age >= cfg.visibility && id in processing {
          processing := RemoveFirst(processing, id);
          beats := beats - {id};
          var n := (if id in deliveries then deliveries[id] else 0) + 1;
          deliveries := deliveries[id := n];
          if n > cfg.maxRedeliveries {
            dead := [id] + dead;
            deliveries := deliveries - {id};
            parked := parked + 1;
            assert deliveries == before.deliveries - {id};
          } else {
            pending := [id] + pending;
            redelivered := redelivered + 1;
          }
        }
        assert State() == M.SweepOne(cfg, before, now, id);
      }
      M.ReapKeepsExactlyFresh(cfg, old(State()), now);
      forall id ensures id in processing <==>
                        id in old(processing) && id in old(beats) && now - old(beats)[id] < cfg.visibility
      {
        M.ReapSparesExactlyTheYoung(cfg, old(State()), now, id);
      }
      M.ReapConserves(cfg, old(State()), now);
    }

    /** True exactly when the id was on the dead list; all its dead copies become one pending copy with a
        cleared delivery counter. */
    method RequeueFromDead(id: M.Id) returns (found: bool)
      modifies this
      ensures found <==> id in old(dead)
      ensures State() == M.RequeueFromDead(old(State()), id)
      ensures id !in dead && (found ==> id !in deliveries)
      ensures pending == if found then [id] + old(pending) else old(pending)
    {
      RemoveAllCount(dead, id, id);
      found := id in dead;
      if found {
        dead := RemoveAll(dead, id);
        deliveries := deliveries - {id};
        pending := [id] + pending;
      }
    }

    /** The in-flight jobs at least `threshold` old, in list order. */
    method StuckJobs(now: int, threshold: int) returns (stuck: seq<(M.Id, int)>)
      ensures stuck == M.Stuck(beats, processing, now, threshold)
      ensures forall id :: (exists age :: (id, age) in stuck) <==>
                           id in processing && (id !in beats || now - beats[id] >= threshold)
    {
      stuck := [];
      var i := 0;
      while i < |processing|
        invariant 0 <= i <= |processing|
        invariant stuck + M.Stuck(beats, processing[i..], now, threshold) == M.Stuck(beats, processing, now, threshold)
      {
        var id := processing[i];
        var age := if id in beats then now - beats[id] else threshold + 1;
        assert processing[i..][0] == id && processing[i..][1..] == processing[i + 1..];
        ghost var rest := M.Stuck(beats, processing[i + 1..], now, threshold);
        if age >= threshold {
          assert stuck + ([(id, age)] + rest) == (stuck + [(id, age)]) + rest;
          stuck := stuck + [(id, age)];
        } else {
          assert [] + rest == rest;
        }
        i := i + 1;
      }
      forall id ensures (exists age :: (id, age) in stuck) <==>
                        id in processing && (id !in beats || now - beats[id] >= threshold)
      {
        M.StuckExactly(beats, processing, now, threshold, id);
      }
    }
  }
}
