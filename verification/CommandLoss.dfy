/** Lost work at the granularity of Redis commands: the status of one request, the enqueues that committed processes owe
    it, and the queue's commands in any interleaving, with crashes between any two of them. */
module CommandLoss {
  import opened RedisLists
  import opened QueueModel
  import R = RedisInterleaving

  /** `live`: the row says QUEUED or RUNNING; `owed`: commits that opened it and whose LPUSH is outstanding. */
  datatype Request = Request(redis: R.State, live: bool, owed: nat)

  datatype Step =
    | Open                       // a commit (submit, retry, or a failure that may be retried), its enqueue to follow
    | Push                       // that enqueue
    | Forget                     // the process that owes it dies first
    | Settle                     // a commit that closes the request
    | Command(step: R.Step)      // any other command of a worker, reaper or operator, or a crash among them

  function Apply(cfg: Config, j: Request, step: Step, id: Id): Request {
    match step
    case Open => j.(live := true, owed := j.owed + 1)
    case Push => if j.owed > 0 then j.(redis := R.Apply(cfg, j.redis, R.EnqueuePush(id)), owed := j.owed - 1) else j
    case Forget => if j.owed > 0 then j.(owed := j.owed - 1) else j
    case Settle => j.(live := false)
    case Command(c) => if c == R.EnqueuePush(id) then j else j.(redis := R.Apply(cfg, j.redis, c))
  }

  /** The row is open, no list and no process in mid-operation has a copy, and no enqueue is owed. */
  predicate Lost(j: Request, id: Id) { j.live && j.owed == 0 && R.Copies(j.redis, id) == 0 }

  /** The LREM of an ack. */
  predicate Acks(s: R.State, c: R.Step, id: Id) {
    c.AckRemove? && c.i < |s.agents| && s.agents[c.i] == R.Working(id) && id in s.q.processing
  }

  /** A crash between the LREM and the LPUSH of a reap or a replay. */
  predicate Drops(s: R.State, c: R.Step, id: Id) { c.Crash? && c.i < |s.agents| && R.Holds(s.agents[c.i], id) }

  predicate TakesLastCopy(s: R.State, c: R.Step, id: Id) {
    R.Copies(s, id) == 1 && (Acks(s, c, id) || Drops(s, c, id))
  }

  predicate Loses(j: Request, step: Step, id: Id) {
    j.live && (
      || (step.Forget? && j.owed == 1 && R.Copies(j.redis, id) == 0)
      || (step.Command? && j.owed == 0 && TakesLastCopy(j.redis, step.step, id)))
  }

  /** A ledger that fits a state, whatever led to it. */
  function Opening(s: R.State, id: Id): R.Ledger {
    var reaping := R.ReaperHeld(s.agents, id);
    R.Ledger(R.Copies(s, id), Count(s.q.processing, id) + reaping, 0, reaping, 0, 0, 0, 0, 0)
  }

  function Net(l: R.Ledger): int { l.pushed - l.acked - l.merged - l.lostReaping - l.lostReplaying }

  lemma CopiesByLedger(s: R.State, l: R.Ledger, id: Id)
    requires R.Balanced(s, l, id)
    ensures R.Copies(s, id) == Net(l)
  {
  }

  predicate Merges(s: R.State, c: R.Step, id: Id) {
    c.ReplayRemove? && c.i < |s.agents| && s.agents[c.i].Idle? && c.id == id && Count(s.q.dead, id) > 0
  }

  /** Copies a command takes away. */
  function Taken(s: R.State, c: R.Step, id: Id): nat {
    if Acks(s, c, id) || Drops(s, c, id) then 1 else if Merges(s, c, id) then Count(s.q.dead, id) - 1 else 0
  }

  lemma NetAfter(cfg: Config, l: R.Ledger, s: R.State, c: R.Step, id: Id)
    requires c != R.EnqueuePush(id)
    ensures Net(R.Book(cfg, l, s, c, id)) == Net(l) - Taken(s, c, id)
  {
  }

  lemma CopiesTaken(cfg: Config, s: R.State, c: R.Step, id: Id)
    requires c != R.EnqueuePush(id)
    ensures R.Copies(R.Apply(cfg, s, c), id) == R.Copies(s, id) - Taken(s, c, id)
  {
    var l := Opening(s, id);
    R.StepKeepsBalance(cfg, s, l, c, id);
    CopiesByLedger(R.Apply(cfg, s, c), R.Book(cfg, l, s, c, id), id);
    CopiesByLedger(s, l, id);
    NetAfter(cfg, l, s, c, id);
  }

  /** What one command does to the number of copies of `id`, for every state of the queue. */
  lemma CopiesAfter(cfg: Config, s: R.State, c: R.Step, id: Id)
    requires c != R.EnqueuePush(id)
    ensures R.Copies(s, id) == 0 ==> R.Copies(R.Apply(cfg, s, c), id) == 0
    ensures R.Copies(s, id) > 0 ==> (R.Copies(R.Apply(cfg, s, c), id) == 0 <==> TakesLastCopy(s, c, id))
  {
    CopiesTaken(cfg, s, c, id);
  }

  /** Exactly the named steps lose a request, for every state and every number of processes. */
  lemma LosesExactlyWhen(cfg: Config, j: Request, step: Step, id: Id)
    requires !Lost(j, id)
    ensures Lost(Apply(cfg, j, step, id), id) <==> Loses(j, step, id)
  {
    match step
    case Push => if j.owed > 0 { PushLeftCount(j.redis.q.pending, id, id); }
    case Command(c) => if c != R.EnqueuePush(id) { CopiesAfter(cfg, j.redis, c, id); }
    case _ =>
  }

  /** Only a commit ends the loss: one that opens the request again, or one that closes it. */
  lemma LostUntilCommit(cfg: Config, j: Request, step: Step, id: Id)
    requires Lost(j, id)
    ensures Lost(Apply(cfg, j, step, id), id) <==> !step.Open? && !step.Settle?
  {
    if step.Command? && step.step != R.EnqueuePush(id) {
      CopiesAfter(cfg, j.redis, step.step, id);
    }
  }

  function Run(cfg: Config, n: nat, steps: seq<Step>, id: Id): Request {
    if steps == [] then Request(R.Init(n), false, 0)
    else Apply(cfg, Run(cfg, n, steps[..|steps| - 1], id), steps[|steps| - 1], id)
  }

  /** A losing step happened, and no commit since. */
  predicate LostSince(cfg: Config, n: nat, steps: seq<Step>, id: Id) {
    steps != [] && (
      var before, last := steps[..|steps| - 1], steps[|steps| - 1];
      || Loses(Run(cfg, n, before, id), last, id)
      || (LostSince(cfg, n, before, id) && !last.Open? && !last.Settle?))
  }

  /** Lost work at command granularity, exactly: under every interleaving of any number of workers, reapers and
      operators, an open request has a copy somewhere or is owed an enqueue unless an ack took its last copy, a reap or
      a replay crashed with it in hand, or the last process that owed its enqueue died. */
  lemma {:induction false} LostExactlyWhen(cfg: Config, n: nat, steps: seq<Step>, id: Id)
    ensures Lost(Run(cfg, n, steps, id), id) <==> LostSince(cfg, n, steps, id)
  {
    if steps != [] {
      var before, last := steps[..|steps| - 1], steps[|steps| - 1];
      LostExactlyWhen(cfg, n, before, id);
      var j := Run(cfg, n, before, id);
      if Lost(j, id) {
        LostUntilCommit(cfg, j, last, id);
        NotLostTwice(j, last, id);
      } else {
        LosesExactlyWhen(cfg, j, last, id);
      }
    }
  }

  lemma NotLostTwice(j: Request, step: Step, id: Id)
    requires Lost(j, id)
    ensures !Loses(j, step, id)
  {
  }
}
