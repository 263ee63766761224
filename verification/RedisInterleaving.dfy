/** The queue protocol one Redis command at a time: any number of workers, reapers and replays, interleaved
    in any order and crashing anywhere, over the same five structures. */
module RedisInterleaving {
  import opened RedisLists
  import opened QueueModel

  /** What a process is in the middle of; between commands it may hold an id that is in no list. */
  datatype Agent =
    | Idle
    | Claimed(id: Id)                                    // BLMOVE done, HSET outstanding
    | Working(id: Id)
    | AckBeat(id: Id)                                    // LREM done, both HDELs outstanding
    | AckCount(id: Id)
    | ReapNext(now: int, rest: seq<Id>)                  // at the head of the sweep loop
    | ReapStale(now: int, id: Id, rest: seq<Id>)         // HGET read an expired claim, LREM outstanding
    | ReapHeld(now: int, id: Id, rest: seq<Id>)          // LREM removed a copy
    | ReapCleared(now: int, id: Id, rest: seq<Id>)       // heartbeat deleted
    | ReapCounted(now: int, id: Id, n: int, rest: seq<Id>)
    | ReapParked(now: int, id: Id, rest: seq<Id>)        // pushed to dead, HDEL outstanding
    | ReplayHeld(id: Id)                                 // LREM 0 removed the dead copies
    | ReplayCleared(id: Id)

  predicate ReaperHolds(a: Agent, id: Id) {
    (a.ReapHeld? || a.ReapCleared? || a.ReapCounted?) && a.id == id
  }

  predicate Holds(a: Agent, id: Id) {
    ReaperHolds(a, id) || ((a.ReplayHeld? || a.ReplayCleared?) && a.id == id)
  }

  datatype State = State(q: Queue, agents: seq<Agent>)

  function Init(n: nat): State { State(EMPTY, seq(n, _ => Idle)) }

  datatype Step =
    | EnqueuePush(id: Id)
    | ClaimMove(i: nat)
    | AckRemove(i: nat)
    | ReapScan(i: nat, now: int)
    | ReplayRemove(i: nat, id: Id)
    | Advance(i: nat, now: int)     // the next command of whatever agent i is doing
    | Crash(i: nat)

  /** Any agent may start, at any time, any operation it is free to start; a step that is not possible is a no-op. */
  function Apply(cfg: Config, s: State, step: Step): State {
    match step
    case EnqueuePush(id) => s.(q := Enqueue(s.q, id))
    case ClaimMove(i) =>
      if i < |s.agents| && s.agents[i].Idle? && s.q.pending != [] then
        var n := |s.q.pending| - 1;
        State(s.q.(pending := s.q.pending[..n], processing := PushLeft(s.q.processing, s.q.pending[n])),
              s.agents[i := Claimed(s.q.pending[n])])
      else s
    case AckRemove(i) =>
      if i < |s.agents| && s.agents[i].Working? then
        var id := s.agents[i].id;
        State(s.q.(processing := RemoveFirst(s.q.processing, id)), s.agents[i := AckBeat(id)])
      else s
    case ReapScan(i, now) =>
      if i < |s.agents| && s.agents[i].Idle? then s.(agents := s.agents[i := ReapNext(now, s.q.processing)]) else s
    case ReplayRemove(i, id) =>
      if i < |s.agents| && s.agents[i].Idle? && id in s.q.dead then
        State(s.q.(dead := RemoveAll(s.q.dead, id)), s.agents[i := ReplayHeld(id)])
      else s
    case Advance(i, now) =>
      if i < |s.agents| then
        var (q, a) := NextCommand(cfg, s.q, s.agents[i], now);
        State(q, s.agents[i := a])
      else s
    case Crash(i) => if i < |s.agents| then s.(agents := s.agents[i := Idle]) else s
  }

  function NextCommand(cfg: Config, q: Queue, a: Agent, now: int): (Queue, Agent) {
    match a
    case Idle => (q, a)
    case Claimed(id) => (q.(beats := q.beats[id := now]), Working(id))
    case Working(_) => (q, a)
    case AckBeat(id) => (q.(beats := q.beats - {id}), AckCount(id))
    case AckCount(id) => (q.(deliveries := q.deliveries - {id}), Idle)
    case ReapNext(t, rest) =>
      if rest == [] then (q, Idle)
      else if Expired(cfg, q.beats, t, rest[0]) then (q, ReapStale(t, rest[0], rest[1..]))
      else (q, ReapNext(t, rest[1..]))
    case ReapStale(t, id, rest) =>
      if id in q.processing then (q.(processing := RemoveFirst(q.processing, id)), ReapHeld(t, id, rest))
      else (q, ReapNext(t, rest))
    case ReapHeld(t, id, rest) => (q.(beats := q.beats - {id}), ReapCleared(t, id, rest))
    case ReapCleared(t, id, rest) =>
      var n := Delivered(q, id) + 1;
      (q.(deliveries := q.deliveries[id := n]), ReapCounted(t, id, n, rest))
    case ReapCounted(t, id, n, rest) =>
      if n > cfg.maxRedeliveries then (q.(dead := PushLeft(q.dead, id)), ReapParked(t, id, rest))
      else (q.(pending := PushLeft(q.pending, id)), ReapNext(t, rest))
    case ReapParked(t, id, rest) => (q.(deliveries := q.deliveries - {id}), ReapNext(t, rest))
    case ReplayHeld(id) => (q.(deliveries := q.deliveries - {id}), ReplayCleared(id))
    case ReplayCleared(id) => (q.(pending := PushLeft(q.pending, id)), Idle)
  }

  function Run(cfg: Config, n: nat, steps: seq<Step>): State {
    if steps == [] then Init(n) else Apply(cfg, Run(cfg, n, steps[..|steps| - 1]), steps[|steps| - 1])
  }

  // ----- what happened to one id so far -----

  datatype Ledger = Ledger(
    pushed: nat,          // enqueues
    claimed: nat,         // copies moved by BLMOVE
    acked: nat,           // copies removed by an ack
    reaped: nat,          // copies removed by a reap
    returned: nat,        // copies a reap pushed back to pending
    parked: nat,          // copies a reap pushed to dead
    merged: nat,          // extra dead copies a replay folded into one
    lostReaping: nat,     // copies in a reaper's hand when it crashed
    lostReplaying: nat)

  /** The entry that `step`, taken in state `s`, adds to the ledger of `id`. */
  function Book(cfg: Config, l: Ledger, s: State, step: Step, id: Id): Ledger {
    match step
    case EnqueuePush(x) => if x == id then l.(pushed := l.pushed + 1) else l
    case ClaimMove(i) =>
      if i < |s.agents| && s.agents[i].Idle? && Next(s.q) == Some(id) then l.(claimed := l.claimed + 1) else l
    case AckRemove(i) =>
      if i < |s.agents| && s.agents[i] == Working(id) && id in s.q.processing then l.(acked := l.acked + 1) else l
    case ReapScan(_, _) => l
    case ReplayRemove(i, x) =>
      if i < |s.agents| && s.agents[i].Idle? && x == id && Count(s.q.dead, id) > 0
      then l.(merged := l.merged + Count(s.q.dead, id) - 1) else l
    case Advance(i, _) => if i < |s.agents| then BookCommand(cfg, l, s.q, s.agents[i], id) else l
    case Crash(i) =>
      if i < |s.agents| && ReaperHolds(s.agents[i], id) then l.(lostReaping := l.lostReaping + 1)
      else if i < |s.agents| && Holds(s.agents[i], id) then l.(lostReplaying := l.lostReplaying + 1)
      else l
  }

  function BookCommand(cfg: Config, l: Ledger, q: Queue, a: Agent, id: Id): Ledger {
    if a.ReapStale? && a.id == id && id in q.processing then l.(reaped := l.reaped + 1)
    else if a.ReapCounted? && a.id == id then
      if a.n > cfg.maxRedeliveries then l.(parked := l.parked + 1) else l.(returned := l.returned + 1)
    else l
  }

  function Account(cfg: Config, n: nat, steps: seq<Step>, id: Id): Ledger {
    if steps == [] then Ledger(0, 0, 0, 0, 0, 0, 0, 0, 0)
    else
      var before := steps[..|steps| - 1];
      Book(cfg, Account(cfg, n, before, id), Run(cfg, n, before), steps[|steps| - 1], id)
  }

  // ----- copies in hand -----

  function ReaperHeld(agents: seq<Agent>, id: Id): nat {
    if agents == [] then 0 else (if ReaperHolds(agents[0], id) then 1 else 0) + ReaperHeld(agents[1..], id)
  }

  function Held(agents: seq<Agent>, id: Id): nat {
    if agents == [] then 0 else (if Holds(agents[0], id) then 1 else 0) + Held(agents[1..], id)
  }

  lemma {:induction false} HeldUpdate(agents: seq<Agent>, i: nat, a: Agent, id: Id)
    requires i < |agents|
    ensures Held(agents[i := a], id) + One(Holds(agents[i], id)) == Held(agents, id) + One(Holds(a, id))
    ensures ReaperHeld(agents[i := a], id) + One(ReaperHolds(agents[i], id))
            == ReaperHeld(agents, id) + One(ReaperHolds(a, id))
  {
    if i == 0 {
      assert agents[i := a][1..] == agents[1..];
    } else {
      assert agents[i := a][1..] == agents[1..][i - 1 := a];
      HeldUpdate(agents[1..], i - 1, a, id);
    }
  }

  lemma {:induction false} NoneHeld(n: nat, id: Id)
    ensures Held(seq(n, _ => Idle), id) == 0 && ReaperHeld(seq(n, _ => Idle), id) == 0
  {
    if n > 0 {
      assert seq(n, _ => Idle)[1..] == seq(n - 1, _ => Idle);
      NoneHeld(n - 1, id);
    }
  }

  function Listed(q: Queue, id: Id): nat { Count(q.pending, id) + Count(q.processing, id) + Count(q.dead, id) }

  /** Copies of `id` anywhere: in a list or in some process's hand. */
  function Copies(s: State, id: Id): nat { Listed(s.q, id) + Held(s.agents, id) }

  /** The balance sheet of one id, given how many copies are in hand. */
  predicate Sheet(q: Queue, held: nat, reaperHeld: nat, l: Ledger, id: Id) {
    && l.pushed == Listed(q, id) + held + l.acked + l.merged + l.lostReaping + l.lostReplaying
    && l.claimed == Count(q.processing, id) + l.acked + l.reaped
    && l.reaped == l.returned + l.parked + reaperHeld + l.lostReaping
  }

  predicate Balanced(s: State, l: Ledger, id: Id) {
    Sheet(s.q, Held(s.agents, id), ReaperHeld(s.agents, id), l, id)
  }

  /** What one command of an operation in progress does to the lists and to the hand that runs it. */
  predicate Effect(q: Queue, a: Agent, q1: Queue, a1: Agent, id: Id) {
    var taken := a.ReapStale? && a.id == id && id in q.processing;
    && Listed(q1, id) + One(Holds(a1, id)) == Listed(q, id) + One(Holds(a, id))
    && Count(q1.processing, id) + One(taken) == Count(q.processing, id)
    && One(ReaperHolds(a1, id)) + One(a.ReapCounted? && a.id == id) == One(ReaperHolds(a, id)) + One(taken)
  }

  lemma RemoveEffect(cfg: Config, q: Queue, a: Agent, now: int, id: Id)
    requires a.ReapStale?
    ensures Effect(q, a, NextCommand(cfg, q, a, now).0, NextCommand(cfg, q, a, now).1, id)
  {
    RemoveFirstCount(q.processing, a.id, id);
    CountIn(q.processing, a.id);
  }

  lemma ReapPushEffect(cfg: Config, q: Queue, a: Agent, now: int, id: Id)
    requires a.ReapCounted?
    ensures Effect(q, a, NextCommand(cfg, q, a, now).0, NextCommand(cfg, q, a, now).1, id)
  {
    if a.n > cfg.maxRedeliveries { PushLeftCount(q.dead, a.id, id); } else { PushLeftCount(q.pending, a.id, id); }
  }

  lemma ReplayPushEffect(cfg: Config, q: Queue, a: Agent, now: int, id: Id)
    requires a.ReplayCleared?
    ensures Effect(q, a, NextCommand(cfg, q, a, now).0, NextCommand(cfg, q, a, now).1, id)
  {
    PushLeftCount(q.pending, a.id, id);
  }

  lemma CommandEffect(cfg: Config, q: Queue, a: Agent, now: int, id: Id)
    ensures Effect(q, a, NextCommand(cfg, q, a, now).0, NextCommand(cfg, q, a, now).1, id)
  {
    if a.ReapStale? {
      RemoveEffect(cfg, q, a, now, id);
    } else if a.ReapCounted? {
      ReapPushEffect(cfg, q, a, now, id);
    } else if a.ReplayCleared? {
      ReplayPushEffect(cfg, q, a, now, id);
    } else {
      var (q1, a1) := NextCommand(cfg, q, a, now);
      assert q1.pending == q.pending && q1.processing == q.processing && q1.dead == q.dead;
      assert Holds(a1, id) == Holds(a, id) && ReaperHolds(a1, id) == ReaperHolds(a, id);
    }
  }

  lemma CommandKeepsBalance(cfg: Config, s: State, l: Ledger, i: nat, now: int, id: Id)
    requires Balanced(s, l, id) && i < |s.agents|
    ensures Balanced(Apply(cfg, s, Advance(i, now)), Book(cfg, l, s, Advance(i, now), id), id)
  {
    CommandEffect(cfg, s.q, s.agents[i], now, id);
    HeldUpdate(s.agents, i, NextCommand(cfg, s.q, s.agents[i], now).1, id);
  }

  lemma MoveCounts(q: Queue, id: Id)
    requires q.pending != []
    ensures var x := q.pending[|q.pending| - 1];
            var q1 := q.(pending := q.pending[..|q.pending| - 1], processing := PushLeft(q.processing, x));
            Listed(q1, id) == Listed(q, id) && Count(q1.processing, id) == Count(q.processing, id) + One(x == id)
  {
    DropLastCount(q.pending, id);
    PushLeftCount(q.processing, q.pending[|q.pending| - 1], id);
  }

  lemma ClaimMoves(cfg: Config, s: State, i: nat, id: Id)
    requires i < |s.agents| && s.agents[i].Idle? && s.q.pending != []
    ensures var taken := s.q.pending[|s.q.pending| - 1] == id;
            var t := Apply(cfg, s, ClaimMove(i));
            && Listed(t.q, id) == Listed(s.q, id) && Count(t.q.processing, id) == Count(s.q.processing, id) + One(taken)
            && Held(t.agents, id) == Held(s.agents, id) && ReaperHeld(t.agents, id) == ReaperHeld(s.agents, id)
  {
    MoveCounts(s.q, id);
    HeldUpdate(s.agents, i, Claimed(s.q.pending[|s.q.pending| - 1]), id);
  }

  lemma ClaimKeepsBalance(cfg: Config, s: State, l: Ledger, i: nat, id: Id)
    requires Balanced(s, l, id)
    ensures Balanced(Apply(cfg, s, ClaimMove(i)), Book(cfg, l, s, ClaimMove(i), id), id)
  {
    if i < |s.agents| && s.agents[i].Idle? && s.q.pending != [] {
      ClaimMoves(cfg, s, i, id);
    }
  }

  lemma AckKeepsBalance(cfg: Config, s: State, l: Ledger, i: nat, id: Id)
    requires Balanced(s, l, id)
    ensures Balanced(Apply(cfg, s, AckRemove(i)), Book(cfg, l, s, AckRemove(i), id), id)
  {
    if i < |s.agents| && s.agents[i].Working? {
      HeldUpdate(s.agents, i, AckBeat(s.agents[i].id), id);
      RemoveFirstCount(s.q.processing, s.agents[i].id, id);
      CountIn(s.q.processing, id);
    }
  }

  lemma ReplayKeepsBalance(cfg: Config, s: State, l: Ledger, i: nat, x: Id, id: Id)
    requires Balanced(s, l, id)
    ensures Balanced(Apply(cfg, s, ReplayRemove(i, x)), Book(cfg, l, s, ReplayRemove(i, x), id), id)
  {
    CountIn(s.q.dead, x);
    if i < |s.agents| && s.agents[i].Idle? && x in s.q.dead {
      HeldUpdate(s.agents, i, ReplayHeld(x), id);
      RemoveAllCount(s.q.dead, x, id);
    }
  }

  lemma CrashKeepsBalance(cfg: Config, s: State, l: Ledger, i: nat, id: Id)
    requires Balanced(s, l, id)
    ensures Balanced(Apply(cfg, s, Crash(i)), Book(cfg, l, s, Crash(i), id), id)
  {
    if i < |s.agents| { HeldUpdate(s.agents, i, Idle, id); }
  }

  lemma StepKeepsBalance(cfg: Config, s: State, l: Ledger, step: Step, id: Id)
    requires Balanced(s, l, id)
    ensures Balanced(Apply(cfg, s, step), Book(cfg, l, s, step, id), id)
  {
    match step
    case EnqueuePush(x) => PushLeftCount(s.q.pending, x, id);
    case ClaimMove(i) => ClaimKeepsBalance(cfg, s, l, i, id);
    case AckRemove(i) => AckKeepsBalance(cfg, s, l, i, id);
    case ReapScan(i, now) =>
      if i < |s.agents| && s.agents[i].Idle? { HeldUpdate(s.agents, i, ReapNext(now, s.q.processing), id); }
    case ReplayRemove(i, x) => ReplayKeepsBalance(cfg, s, l, i, x, id);
    case Advance(i, now) => if i < |s.agents| { CommandKeepsBalance(cfg, s, l, i, now, id); }
    case Crash(i) => CrashKeepsBalance(cfg, s, l, i, id);
  }

  /** Conservation at command granularity, for every interleaving: what was pushed is what is in the lists or
      in a hand, plus what acks removed, replays merged and crashes dropped from a hand. */
  lemma {:induction false} EveryCopyAccountedFor(cfg: Config, n: nat, steps: seq<Step>, id: Id)
    ensures Balanced(Run(cfg, n, steps), Account(cfg, n, steps, id), id)
  {
    if steps == [] {
      NoneHeld(n, id);
    } else {
      var before := steps[..|steps| - 1];
      EveryCopyAccountedFor(cfg, n, before, id);
      StepKeepsBalance(cfg, Run(cfg, n, before), Account(cfg, n, before, id), steps[|steps| - 1], id);
    }
  }

  /** However many reapers share a snapshot, one claim is redelivered or parked at most once. */
  lemma OneRedeliveryPerClaim(cfg: Config, n: nat, steps: seq<Step>, id: Id)
    ensures var l := Account(cfg, n, steps, id); l.returned + l.parked + l.acked <= l.claimed
  {
    EveryCopyAccountedFor(cfg, n, steps, id);
  }

  lemma {:induction false} HolderCounted(agents: seq<Agent>, i: nat, id: Id)
    requires i < |agents| && Holds(agents[i], id)
    ensures Held(agents, id) >= 1
  {
    if i > 0 { HolderCounted(agents[1..], i - 1, id); }
  }

  lemma {:induction false} HoldersCounted(agents: seq<Agent>, i: nat, j: nat, id: Id)
    requires i < j < |agents| && Holds(agents[i], id) && Holds(agents[j], id)
    ensures Held(agents, id) >= 2
  {
    if i > 0 { HoldersCounted(agents[1..], i - 1, j - 1, id); } else { HolderCounted(agents[1..], j - 1, id); }
  }

  /** A job enqueued once never forks: a copy in a reaper's or replay's hand is the only one, and no two
      processes hold it together. */
  lemma SingleEnqueueNeverForks(cfg: Config, n: nat, steps: seq<Step>, id: Id, i: nat)
    requires Account(cfg, n, steps, id).pushed <= 1
    requires i < |Run(cfg, n, steps).agents| && Holds(Run(cfg, n, steps).agents[i], id)
    ensures var s := Run(cfg, n, steps);
            && id !in s.q.pending && id !in s.q.processing && id !in s.q.dead
            && forall j :: 0 <= j < |s.agents| && j != i ==> !Holds(s.agents[j], id)
  {
    var s := Run(cfg, n, steps);
    EveryCopyAccountedFor(cfg, n, steps, id);
    HolderCounted(s.agents, i, id);
    CountIn(s.q.pending, id);
    CountIn(s.q.processing, id);
    CountIn(s.q.dead, id);
    forall j | 0 <= j < |s.agents| && j != i ensures !Holds(s.agents[j], id) {
      if Holds(s.agents[j], id) {
        if i < j { HoldersCounted(s.agents, i, j, id); } else { HoldersCounted(s.agents, j, i, id); }
      }
    }
  }

  /** A crash drops a copy exactly when it falls between the LREM and the LPUSH of a reap or a replay. */
  lemma CrashLosesExactlyTheHeldCopy(cfg: Config, s: State, i: nat, id: Id)
    requires i < |s.agents|
    ensures Copies(Apply(cfg, s, Crash(i)), id) < Copies(s, id) <==> Holds(s.agents[i], id)
    ensures Copies(Apply(cfg, s, Crash(i)), id) == Copies(s, id) - One(Holds(s.agents[i], id))
  {
    HeldUpdate(s.agents, i, Idle, id);
  }

  lemma Extend(cfg: Config, n: nat, steps: seq<Step>, step: Step) returns (longer: seq<Step>)
    ensures longer == steps + [step]
    ensures Run(cfg, n, longer) == Apply(cfg, Run(cfg, n, steps), step)
  {
    longer := steps + [step];
    assert longer[..|longer| - 1] == steps;
  }

  lemma ClaimThenScan(cfg: Config, id: Id) returns (steps: seq<Step>)
    ensures Run(cfg, 2, steps) == State(EMPTY.(processing := [id]), [Claimed(id), ReapNext(0, [id])])
  {
    assert Run(cfg, 2, []) == State(EMPTY, [Idle, Idle]);
    steps := Extend(cfg, 2, [], EnqueuePush(id));
    assert Run(cfg, 2, steps) == State(EMPTY.(pending := [id]), [Idle, Idle]);
    steps := Extend(cfg, 2, steps, ClaimMove(0));
    assert Run(cfg, 2, steps) == State(EMPTY.(processing := [id]), [Claimed(id), Idle]);
    steps := Extend(cfg, 2, steps, ReapScan(1, 0));
  }

  /** Agent 1 issues its next command while agent 0 sits between BLMOVE and HSET. */
  lemma ReaperMoves(cfg: Config, before: seq<Step>, q: Queue, a: Agent, id: Id, q1: Queue, a1: Agent)
    returns (steps: seq<Step>)
    requires Run(cfg, 2, before) == State(q, [Claimed(id), a]) && NextCommand(cfg, q, a, 0) == (q1, a1)
    ensures Run(cfg, 2, steps) == State(q1, [Claimed(id), a1])
  {
    steps := Extend(cfg, 2, before, Advance(1, 0));
    assert [Claimed(id), a][1 := a1] == [Claimed(id), a1];
  }

  lemma FindStale(cfg: Config, q: Queue, id: Id)
    requires q == EMPTY.(processing := [id])
    ensures NextCommand(cfg, q, ReapNext(0, [id]), 0) == (q, ReapStale(0, id, []))
    ensures NextCommand(cfg, q, ReapStale(0, id, []), 0) == (EMPTY, ReapHeld(0, id, []))
  {
    assert [id][1..] == [] && Expired(cfg, q.beats, 0, id);
  }

  lemma CountFirst(cfg: Config, q: Queue, id: Id)
    requires q == EMPTY.(deliveries := map[id := 1])
    ensures NextCommand(cfg, EMPTY, ReapHeld(0, id, []), 0) == (EMPTY, ReapCleared(0, id, []))
    ensures NextCommand(cfg, EMPTY, ReapCleared(0, id, []), 0) == (q, ReapCounted(0, id, 1, []))
  {
  }

  lemma SweepWithoutHeartbeat(cfg: Config, id: Id) returns (steps: seq<Step>)
    ensures Run(cfg, 2, steps) == State(EMPTY, [Claimed(id), ReapHeld(0, id, [])])
  {
    var q := EMPTY.(processing := [id]);
    FindStale(cfg, q, id);
    steps := ClaimThenScan(cfg, id);
    steps := ReaperMoves(cfg, steps, q, ReapNext(0, [id]), id, q, ReapStale(0, id, []));
    steps := ReaperMoves(cfg, steps, q, ReapStale(0, id, []), id, EMPTY, ReapHeld(0, id, []));
  }

  lemma CountUnbeaten(cfg: Config, id: Id) returns (steps: seq<Step>)
    ensures Run(cfg, 2, steps) == State(EMPTY.(deliveries := map[id := 1]), [Claimed(id), ReapCounted(0, id, 1, [])])
  {
    var q := EMPTY.(deliveries := map[id := 1]);
    CountFirst(cfg, q, id);
    steps := SweepWithoutHeartbeat(cfg, id);
    steps := ReaperMoves(cfg, steps, EMPTY, ReapHeld(0, id, []), id, EMPTY, ReapCleared(0, id, []));
    steps := ReaperMoves(cfg, steps, EMPTY, ReapCleared(0, id, []), id, q, ReapCounted(0, id, 1, []));
  }

  /** The queue after a single job was redelivered for the first time. */
  function Redelivered(id: Id): Queue { EMPTY.(pending := [id], deliveries := map[id := 1]) }

  lemma RedeliverUnbeaten(cfg: Config, id: Id) returns (steps: seq<Step>)
    requires cfg.maxRedeliveries >= 1
    ensures Run(cfg, 2, steps) == State(Redelivered(id), [Claimed(id), ReapNext(0, [])])
  {
    var q := EMPTY.(deliveries := map[id := 1]);
    assert PushLeft(q.pending, id) == [id];
    steps := CountUnbeaten(cfg, id);
    steps := ReaperMoves(cfg, steps, q, ReapCounted(0, id, 1, []), id, Redelivered(id), ReapNext(0, []));
  }

  /** A claim is not safe from the reaper until its heartbeat is written: between BLMOVE and HSET a sweep
      takes the job back to pending, and the claimer still goes on to work on it. */
  lemma FreshClaimCanBeReaped(cfg: Config, id: Id) returns (steps: seq<Step>)
    requires cfg.maxRedeliveries >= 1
    ensures var s := Run(cfg, 2, steps);
            |s.agents| == 2 && s.agents[0] == Working(id) && id in s.q.pending && id !in s.q.processing
  {
    steps := RedeliverUnbeaten(cfg, id);
    steps := Extend(cfg, 2, steps, Advance(0, 0));
  }
}
