/** Every sequence of queue-method calls: bounds on the stored delivery counters, and exactly when a job is
    parked on the dead-letter list. */
module DeadLetter {
  import opened RedisLists
  import opened QueueModel

  datatype Op =
    | OpEnqueue(id: Id)
    | OpClaim(now: int)
    | OpAck(id: Id)
    | OpReap(now: int)
    | OpReplay(id: Id)

  function Exec(cfg: Config, q: Queue, op: Op): Queue {
    match op
    case OpEnqueue(id) => Enqueue(q, id)
    case OpClaim(now) => Claim(q, now)
    case OpAck(id) => Ack(q, id)
    case OpReap(now) => Reap(cfg, q, now)
    case OpReplay(id) => RequeueFromDead(q, id)
  }

  function Run(cfg: Config, ops: seq<Op>): Queue {
    if ops == [] then EMPTY else Exec(cfg, Run(cfg, ops[..|ops| - 1]), ops[|ops| - 1])
  }

  ghost predicate CountersBounded(cfg: Config, q: Queue) {
    forall id :: id in q.deliveries ==> 1 <= q.deliveries[id] <= cfg.maxRedeliveries
  }

  lemma {:induction false} SweepKeepsCounters(cfg: Config, q: Queue, now: int, snapshot: seq<Id>)
    requires CountersBounded(cfg, q)
    ensures CountersBounded(cfg, Sweep(cfg, q, now, snapshot))
    decreases |snapshot|
  {
    if snapshot != [] { SweepKeepsCounters(cfg, SweepOne(cfg, q, now, snapshot[0]), now, snapshot[1..]); }
  }

  /** In every reachable state every stored delivery counter lies between 1 and the configured maximum. */
  lemma {:induction false} CountersAlwaysBounded(cfg: Config, ops: seq<Op>)
    ensures CountersBounded(cfg, Run(cfg, ops))
  {
    if ops != [] {
      var before, op := ops[..|ops| - 1], ops[|ops| - 1];
      CountersAlwaysBounded(cfg, before);
      if op.OpReap? { SweepKeepsCounters(cfg, Run(cfg, before), op.now, Run(cfg, before).processing); }
    }
  }

  /** The reap at the end of `before + [op]` takes a copy of `id` out of processing. */
  predicate Sweeps(cfg: Config, before: seq<Op>, op: Op, id: Id) {
    var q := Run(cfg, before);
    op.OpReap? && id in q.processing && Expired(cfg, q.beats, op.now, id)
  }

  /** How many reaps swept `id` since its last ack or its last replay from the dead list. */
  function SweepsSince(cfg: Config, ops: seq<Op>, id: Id): nat {
    if ops == [] then 0
    else
      var before, op := ops[..|ops| - 1], ops[|ops| - 1];
      if op == OpAck(id) || (op == OpReplay(id) && id in Run(cfg, before).dead) then 0
      else SweepsSince(cfg, before, id) + (if Sweeps(cfg, before, op, id) then 1 else 0)
  }

  /** The queue never holds two copies of `id` anywhere along the run. */
  predicate OneCopy(cfg: Config, ops: seq<Op>, id: Id) {
    SlotOf(Run(cfg, ops), id).AtMostOnce() && (ops == [] || OneCopy(cfg, ops[..|ops| - 1], id))
  }

  lemma ExecSlot(cfg: Config, q: Queue, op: Op, id: Id)
    ensures SlotOf(Exec(cfg, q, op), id) ==
            match op
            case OpEnqueue(x) => if x == id then SlotEnqueue(SlotOf(q, id)) else SlotOf(q, id)
            case OpClaim(now) => if Next(q) == Some(id) then SlotClaim(SlotOf(q, id), now) else SlotOf(q, id)
            case OpAck(x) => if x == id then SlotAck(SlotOf(q, id)) else SlotOf(q, id)
            case OpReap(now) => SlotReap(cfg, SlotOf(q, id), now)
            case OpReplay(x) => if x == id then SlotReplay(SlotOf(q, id)) else SlotOf(q, id)
  {
    match op
    case OpEnqueue(x) => EnqueueSlot(q, x, id);
    case OpClaim(now) => ClaimSlot(q, now, id);
    case OpAck(x) => AckSlot(q, x, id);
    case OpReap(now) => ReapSlot(cfg, q, now, id);
    case OpReplay(x) => ReplaySlot(q, x, id);
  }

  /** While a job has one copy, its stored counter is the number of sweeps since its last ack or replay, and
      is cleared once the job is parked. */
  lemma {:induction false} CounterCountsSweeps(cfg: Config, ops: seq<Op>, id: Id)
    requires OneCopy(cfg, ops, id)
    ensures var v := SlotOf(Run(cfg, ops), id);
            if v.dead > 0 then v.mark.delivered == 0
            else v.mark.delivered == SweepsSince(cfg, ops, id) <= Max(cfg.maxRedeliveries, 0)
  {
    if ops != [] {
      var before, op := ops[..|ops| - 1], ops[|ops| - 1];
      CounterCountsSweeps(cfg, before, id);
      var v := SlotOf(Run(cfg, before), id);
      ExecSlot(cfg, Run(cfg, before), op, id);
      CountIn(Run(cfg, before).processing, id);
      CountIn(Run(cfg, before).dead, id);
      if op.OpClaim? { ClaimSlot(Run(cfg, before), op.now, id); }
      if op.OpReap? && v.processing == 1 && SlotExpired(cfg, v, op.now) {
        assert SlotReap(cfg, v, op.now) == SlotMoves(cfg, SlotMove(cfg, v), 0);
      }
    }
  }

  /** Dead-letter exactness: a call parks a job exactly when it is the reap that sweeps it for the
      `(maxRedeliveries + 1)`-th time since the job's last ack or replay. */
  lemma ParkedExactlyAfterLastRedelivery(cfg: Config, before: seq<Op>, op: Op, id: Id)
    requires OneCopy(cfg, before + [op], id)
    ensures Count(Run(cfg, before + [op]).dead, id) > Count(Run(cfg, before).dead, id)
            <==> Sweeps(cfg, before, op, id)
                 && SweepsSince(cfg, before + [op], id) == Max(cfg.maxRedeliveries, 0) + 1
  {
    var ops := before + [op];
    assert ops[..|ops| - 1] == before;
    CounterCountsSweeps(cfg, before, id);
    var v := SlotOf(Run(cfg, before), id);
    ExecSlot(cfg, Run(cfg, before), op, id);
    CountIn(Run(cfg, before).processing, id);
    if op.OpReap? && v.processing == 1 && SlotExpired(cfg, v, op.now) {
      assert SlotReap(cfg, v, op.now) == SlotMoves(cfg, SlotMove(cfg, v), 0);
    }
  }
}
