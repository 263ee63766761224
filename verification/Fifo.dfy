/** The queue hands jobs out in the order they were put in, a job that is redelivered or replayed being put in again. */
module Fifo {
  import opened RedisLists
  import opened QueueModel
  import opened DeadLetter

  /** The ids a sweep puts back into pending, in the order it does. */
  function PutBack(cfg: Config, q: Queue, now: int, snapshot: seq<Id>): seq<Id>
    decreases |snapshot|
  {
    if snapshot == [] then []
    else
      var id := snapshot[0];
      var goesBack := Expired(cfg, q.beats, now, id) && id in q.processing && Delivered(q, id) < cfg.maxRedeliveries;
      (if goesBack then [id] else []) + PutBack(cfg, SweepOne(cfg, q, now, id), now, snapshot[1..])
  }

  /** What one operation puts in, oldest first. */
  function PutIn(cfg: Config, q: Queue, op: Op): seq<Id> {
    match op
    case OpEnqueue(id) => [id]
    case OpReap(now) => PutBack(cfg, q, now, q.processing)
    case OpReplay(id) => if id in q.dead then [id] else []
    case _ => []
  }

  function Entered(cfg: Config, ops: seq<Op>): seq<Id> {
    if ops == [] then []
    else
      var before := ops[..|ops| - 1];
      Entered(cfg, before) + PutIn(cfg, Run(cfg, before), ops[|ops| - 1])
  }

  /** Ids handed out by a run, oldest first. */
  function HandedOut(cfg: Config, ops: seq<Op>): seq<Id> {
    if ops == [] then []
    else
      var before := ops[..|ops| - 1];
      var next := Next(Run(cfg, before));
      HandedOut(cfg, before) + (if ops[|ops| - 1].OpClaim? && next.Some? then [next.value] else [])
  }

  lemma {:induction false} ReverseEnd<T>(s: seq<T>)
    requires s != []
    ensures Reverse(s) == [s[|s| - 1]] + Reverse(s[..|s| - 1])
  {
    if |s| > 1 {
      ReverseEnd(s[1..]);
      assert s[1..][..|s| - 2] == s[..|s| - 1][1..];
    }
  }

  lemma {:induction false} ReversePushed(xs: seq<Id>, base: seq<Id>)
    ensures Reverse(PushAll(xs, base)) == Reverse(base) + xs
  {
    if xs != [] {
      ReversePushed(xs[1..], PushLeft(base, xs[0]));
      assert PushLeft(base, xs[0])[1..] == base;
      assert Reverse(base) + [xs[0]] + xs[1..] == Reverse(base) + xs;
    }
  }

  lemma {:induction false} SweepPutsBack(cfg: Config, q: Queue, now: int, snapshot: seq<Id>)
    ensures Sweep(cfg, q, now, snapshot).pending == PushAll(PutBack(cfg, q, now, snapshot), q.pending)
    decreases |snapshot|
  {
    if snapshot != [] {
      var id, rest := snapshot[0], snapshot[1..];
      var q1 := SweepOne(cfg, q, now, id);
      SweepPutsBack(cfg, q1, now, rest);
      PushAllCons(id, PutBack(cfg, q1, now, rest), q.pending);
      assert [] + PutBack(cfg, q1, now, rest) == PutBack(cfg, q1, now, rest);
    }
  }

  /** With one copy per id, what a reap puts back is the expired jobs with a redelivery left, in list order. */
  lemma PutBackIsDue(cfg: Config, q: Queue, now: int)
    requires Distinct(q.processing)
    ensures PutBack(cfg, q, now, q.processing) == Due(cfg, q, now, q.processing, false)
  {
    SweepPutsBack(cfg, q, now, q.processing);
    SweepPushes(cfg, q, now, q.processing);
    ReversePushed(PutBack(cfg, q, now, q.processing), q.pending);
    ReversePushed(Due(cfg, q, now, q.processing, false), q.pending);
    var n := |Reverse(q.pending)|;
    var all := Reverse(Reap(cfg, q, now).pending);
    assert PutBack(cfg, q, now, q.processing) == all[n..];
    assert Due(cfg, q, now, q.processing, false) == all[n..];
  }

  lemma OpFirstInFirstOut(cfg: Config, q: Queue, op: Op)
    ensures var out := if op.OpClaim? && Next(q).Some? then [Next(q).value] else [];
            out + Reverse(Exec(cfg, q, op).pending) == Reverse(q.pending) + PutIn(cfg, q, op)
  {
    match op
    case OpEnqueue(id) => assert PushLeft(q.pending, id)[1..] == q.pending;
    case OpClaim(now) => if q.pending != [] { ReverseEnd(q.pending); }
    case OpAck(id) =>
    case OpReap(now) =>
      SweepPutsBack(cfg, q, now, q.processing);
      ReversePushed(PutBack(cfg, q, now, q.processing), q.pending);
    case OpReplay(id) => assert PushLeft(q.pending, id)[1..] == q.pending;
  }

  /** Over every run of queue methods, reaps and replays included: what was handed out, followed by what waits, is
      what was put in, in order. */
  lemma {:induction false} FirstInFirstOut(cfg: Config, ops: seq<Op>)
    ensures HandedOut(cfg, ops) + Reverse(Run(cfg, ops).pending) == Entered(cfg, ops)
  {
    if ops != [] {
      var before, op := ops[..|ops| - 1], ops[|ops| - 1];
      FirstInFirstOut(cfg, before);
      var q := Run(cfg, before);
      OpFirstInFirstOut(cfg, q, op);
      var out := if op.OpClaim? && Next(q).Some? then [Next(q).value] else [];
      Reassociate(HandedOut(cfg, before), out, Reverse(Run(cfg, ops).pending));
      Reassociate(HandedOut(cfg, before), Reverse(q.pending), PutIn(cfg, q, op));
    }
  }
}
