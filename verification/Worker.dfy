/** The worker as the program has it: a repository and a queue updated in place.  Every method is tied to the
    step of `JobSystem` it performs, so a whole `RunOnce` is one of that system's runs. */
module WorkerProcess {
  import opened RedisLists
  import opened QueueModel
  import opened PipelineGraph
  import opened RequestRow
  import opened JobLifecycle
  import opened DriveOutcome
  import Q = JobQueueClass
  import S = JobSystem

  function WithArtifacts(rows: map<Id, Row>, id: Id, more: seq<Artifact>): map<Id, Row>
    requires id in rows
  {
    rows[id := rows[id].(artifacts := rows[id].artifacts + more)]
  }

  lemma WithArtifactsTwice(rows: map<Id, Row>, id: Id, first: seq<Artifact>, second: seq<Artifact>)
    requires id in rows
    ensures WithArtifacts(WithArtifacts(rows, id, first), id, second) == WithArtifacts(rows, id, first + second)
  {
    assert rows[id].artifacts + first + second == rows[id].artifacts + (first + second);
  }

  /** Request rows with their steps and artifacts; one method call is one committed transaction. */
  class Repository {
    var rows: map<Id, Row>

    constructor ()
      ensures rows == map[]
    {
      rows := map[];
    }

    /** A new request gets an id nobody has used. */
    method CreateRequest(id: Id)
      requires id !in rows
      modifies this
      ensures rows == old(rows)[id := SUBMITTED]
    {
      rows := rows[id := SUBMITTED];
    }

    method UpdateRequest(id: Id, status: Status, attempts: nat, error: Note)
      requires id in rows
      modifies this
      ensures rows == old(rows)[id := old(rows)[id].(status := status, attempts := attempts, error := error)]
    {
      rows := rows[id := rows[id].(status := status, attempts := attempts, error := error)];
    }

    /** A node that was already checkpointed keeps its first output. */
    method SaveStep(id: Id, node: Node, output: Output)
      requires id in rows
      modifies this
      ensures rows == old(rows)[id := RequestRow.SaveStep(old(rows)[id], node, output)]
      ensures node in rows[id].steps
      ensures node in old(rows)[id].steps ==> rows == old(rows)
    {
      if node in rows[id].steps {
        assert rows == rows[id := rows[id]];
        return;
      }
      rows := rows[id := rows[id].(steps := rows[id].steps[node := output])];
    }

    method AddArtifact(id: Id, kind: Kind, payload: Output)
      requires id in rows
      modifies this
      ensures rows == WithArtifacts(old(rows), id, [Artifact(kind, payload)])
    {
      rows := rows[id := rows[id].(artifacts := rows[id].artifacts + [Artifact(kind, payload)])];
    }

    method AddProduced(id: Id, final: map<Node, Output>, node: Node, kind: Kind)
      requires id in rows
      modifies this
      ensures rows == WithArtifacts(old(rows), id, Produced(final, node, kind))
    {
      if node in final {
        AddArtifact(id, kind, final[node]);
      } else {
        assert rows[id].artifacts + [] == rows[id].artifacts;
        assert rows == rows[id := rows[id]];
      }
    }

    /** The artifacts of every node that ran, then the status the drive ended with. */
    method CommitFinal(id: Id, final: map<Node, Output>)
      requires id in rows
      modifies this
      ensures rows == old(rows)[id := Finalize(old(rows)[id], final)]
    {
      ghost var ticket, reply := Produced(final, CreateTicket, Ticket), Produced(final, DraftReply, Reply);
      ghost var notice, report := Produced(final, Notify, Notification), Produced(final, GenerateReport, Report);
      AddProduced(id, final, CreateTicket, Ticket);
      AddProduced(id, final, DraftReply, Reply);
      WithArtifactsTwice(old(rows), id, ticket, reply);
      AddProduced(id, final, Notify, Notification);
      WithArtifactsTwice(old(rows), id, ticket + reply, notice);
      AddProduced(id, final, GenerateReport, Report);
      WithArtifactsTwice(old(rows), id, ticket + reply + notice, report);
      AddProduced(id, final, HumanReview, Review);
      WithArtifactsTwice(old(rows), id, ticket + reply + notice + report, Produced(final, HumanReview, Review));
      UpdateRequest(id, FinalStatus(final), rows[id].attempts, NoError);
    }
  }

  /** Rows and queue after a claimed job was driven and put back if that says so; a missing row changes nothing. */
  function AfterProcess(maxAttempts: int, rows: map<Id, Row>, q: Queue, id: Id, outcomes: Node -> NodeOutcome)
    : (map<Id, Row>, Queue)
  {
    if id !in rows then (rows, q)
    else
      var (requeue, r) := Driven(maxAttempts, rows[id], outcomes);
      (rows[id := r], if requeue then Enqueue(q, id) else q)
  }

  /** The same, followed by the ack. */
  function AfterTurn(maxAttempts: int, rows: map<Id, Row>, q: Queue, id: Id, outcomes: Node -> NodeOutcome)
    : (map<Id, Row>, Queue)
  {
    var (rows1, q1) := AfterProcess(maxAttempts, rows, q, id, outcomes);
    (rows1, Ack(q1, id))
  }

  /** What a turn leaves: the job has left the head of the queue and is not in flight any more, nothing is stored for
      it, and it waits at the tail again exactly if its drive put it back. */
  lemma TurnLeaves(maxAttempts: int, rows: map<Id, Row>, q: Queue, now: int, outcomes: Node -> NodeOutcome)
    requires q.pending != []
    ensures var n := |q.pending| - 1;
            var id := q.pending[n];
            var (rows1, q1) := AfterTurn(maxAttempts, rows, Claim(q, now), id, outcomes);
            var back := id in rows && Driven(maxAttempts, rows[id], outcomes).0;
            && rows1 == (if id in rows then rows[id := Driven(maxAttempts, rows[id], outcomes).1] else rows)
            && q1.pending == (if back then [id] else []) + q.pending[..n]
            && q1.processing == q.processing && q1.dead == q.dead
            && q1.beats == q.beats - {id} && q1.deliveries == q.deliveries - {id}
  {
    var id := q.pending[|q.pending| - 1];
    assert q.beats[id := now] - {id} == q.beats - {id};
    assert PushLeft(q.processing, id)[1..] == q.processing;
    assert [] + q.pending[..|q.pending| - 1] == q.pending[..|q.pending| - 1];
  }

  lemma AfterProcessIs(maxAttempts: int, rows: map<Id, Row>, q: Queue, id: Id, outcomes: Node -> NodeOutcome)
    ensures id in rows ==>
              var (attempts, r) := RequestRow.Begin(rows[id]);
              var begun := rows[id := r];
              AfterProcess(maxAttempts, rows, q, id, outcomes)
              == if attempts.None? then (begun, q)
                 else
                   var (requeue, r1) := AfterBegin(maxAttempts, r, attempts.value, outcomes);
                   (begun[id := r1], if requeue then Enqueue(q, id) else q)
    ensures id !in rows ==> AfterProcess(maxAttempts, rows, q, id, outcomes) == (rows, q)
  {
    if id in rows {
      var r, end := RequestRow.Begin(rows[id]).1, Driven(maxAttempts, rows[id], outcomes).1;
      assert rows[id := r][id := end] == rows[id := end];
    }
  }

  lemma ProcessedNotRunning(maxAttempts: int, rows: map<Id, Row>, q: Queue, id: Id, outcomes: Node -> NodeOutcome)
    ensures var rows1 := AfterProcess(maxAttempts, rows, q, id, outcomes).0;
            id in rows1 ==> rows1[id].status != Running
  {
    if id in rows {
      NeverLeftRunning(maxAttempts, rows[id], outcomes);
    }
  }

  lemma HeldAgain(held: map<Id, Phase>, id: Id, p: Phase)
    requires id !in held
    ensures held[id := p] - {id} == held
  {
  }

  class Worker {
    const cfg: Settings
    const repo: Repository
    const queue: Q.JobQueue
    ghost var held: map<Id, Phase>
    ghost var hand: multiset<Id>
    ghost var accidents: multiset<Id>

    ghost predicate Valid()
      reads this
    {
      queue.cfg == cfg.queue && repo as object != queue && repo as object != this && queue as object != this
    }

    ghost function State(): S.System
      reads this, repo, queue
    {
      S.System(queue.State(), repo.rows, held, hand, accidents)
    }

    constructor (cfg: Settings, repo: Repository, queue: Q.JobQueue)
      requires queue.cfg == cfg.queue
      ensures Valid() && this.cfg == cfg && this.repo == repo && this.queue == queue
      ensures held == map[] && hand == multiset{} && accidents == multiset{}
    {
      this.cfg, this.repo, this.queue := cfg, repo, queue;
      held, hand, accidents := map[], multiset{}, multiset{};
    }

    method Begin(id: Id) returns (attempts: Option<nat>)
      requires Valid() && id in held && held[id] == Claimed
      modifies this, repo
      ensures Valid() && State() == S.Apply(cfg, old(State()), S.On(id, BeginDrive))
      ensures id in held && held[id] == (if attempts.Some? then Driving(attempts.value, ENTRY, map[]) else Acking)
      ensures attempts.Some? ==> id in repo.rows && repo.rows[id].status == Running
      ensures attempts.None? && id in repo.rows ==> !Live(repo.rows[id])
      ensures id in old(repo.rows) ==>
                && attempts == RequestRow.Begin(old(repo.rows)[id]).0
                && repo.rows == old(repo.rows)[id := RequestRow.Begin(old(repo.rows)[id]).1]
      ensures id !in old(repo.rows) ==> attempts.None? && repo.rows == old(repo.rows)
      ensures held == old(held)[id := held[id]] && hand == old(hand) && accidents == old(accidents)
    {
      if id !in repo.rows {
        held := held[id := Acking];
        return None;
      }
      var r := repo.rows[id];
      if r.status == Completed || r.status == Failed || r.status == NeedsReview {
        held := held[id := Acking];
        assert repo.rows == repo.rows[id := r];
        return None;
      }
      if GenerateReport in r.steps || HumanReview in r.steps {
        var status := if HumanReview in r.steps then NeedsReview else Completed;
        repo.UpdateRequest(id, status, r.attempts, r.error);
        held := held[id := Acking];
        return None;
      }
      repo.UpdateRequest(id, Running, r.attempts + 1, r.error);
      held := held[id := Driving(r.attempts + 1, ENTRY, map[])];
      return Some(r.attempts + 1);
    }

    /** Artifacts and status in one transaction; a request that is gone is left alone. */
    method FinalizeRun(id: Id, final: map<Node, Output>)
      requires Valid() && id in held && held[id] == Finishing(final)
      modifies this, repo
      ensures Valid() && State() == S.Apply(cfg, old(State()), S.On(id, FinalizeDrive))
      ensures id !in old(repo.rows) ==> repo.rows == old(repo.rows)
      ensures id in old(repo.rows) ==> repo.rows == old(repo.rows)[id := Finalize(old(repo.rows)[id], final)]
      ensures held == old(held)[id := Acking] && hand == old(hand) && accidents == old(accidents)
    {
      if id in repo.rows {
        repo.CommitFinal(id, final);
      }
      held := held[id := Acking];
    }

    /** One transaction: QUEUED if the job may be retried, else FAILED; a request that is gone is left alone. */
    method RecordFailure(id: Id, attempts: nat, retryable: bool, text: string) returns (requeue: bool)
      requires Valid() && id in held && held[id].Driving? && held[id].attempts == attempts
      modifies this, repo
      ensures Valid() && State() == S.Apply(cfg, old(State()), S.On(id, FailDrive(retryable, text)))
      ensures id !in old(repo.rows) ==> !requeue && repo.rows == old(repo.rows)
      ensures id in old(repo.rows) ==>
                var (again, r) := Fail(cfg.maxAttempts, old(repo.rows)[id], attempts, retryable, text);
                requeue == again && repo.rows == old(repo.rows)[id := r]
      ensures held == old(held)[id := if requeue then Requeueing else Acking]
      ensures queue.State() == old(queue.State()) && hand == old(hand) && accidents == old(accidents)
    {
      requeue := false;
      if id in repo.rows {
        if retryable && attempts < cfg.maxAttempts {
          repo.UpdateRequest(id, Queued, repo.rows[id].attempts, Retrying(attempts, cfg.maxAttempts, text));
          requeue := true;
        } else {
          repo.UpdateRequest(id, RequestRow.Failed, repo.rows[id].attempts, GaveUp(text));
        }
      }
      held := held[id := if requeue then Requeueing else Acking];
    }

    /** Records the failure and, if it may be retried, puts the job back. */
    method HandleFailure(id: Id, attempts: nat, retryable: bool, text: string) returns (ghost trace: seq<S.Action>)
      requires Valid() && id in held && held[id].Driving? && held[id].attempts == attempts
      modifies this, repo, queue
      ensures Valid() && State() == S.RunFrom(cfg, old(State()), trace)
      ensures id !in old(repo.rows) ==> repo.rows == old(repo.rows) && queue.State() == old(queue.State())
      ensures id in old(repo.rows) ==>
                var (requeue, r) := Fail(cfg.maxAttempts, old(repo.rows)[id], attempts, retryable, text);
                && repo.rows == old(repo.rows)[id := r]
                && queue.State() == if requeue then Enqueue(old(queue.State()), id) else old(queue.State())
      ensures held == old(held)[id := Acking] && hand == old(hand) && accidents == old(accidents)
    {
      ghost var s := State();
      var requeue := RecordFailure(id, attempts, retryable, text);
      S.ContinueWith(cfg, s, [], s, S.On(id, FailDrive(retryable, text)), State());
      trace := [] + [S.On(id, FailDrive(retryable, text))];
      if requeue {
        trace := Requeue(id, s, trace);
      }
    }

    /** The enqueue after a failure that was recorded as QUEUED. */
    method Requeue(id: Id, ghost s: S.System, ghost before: seq<S.Action>) returns (ghost trace: seq<S.Action>)
      requires Valid() && id in held && held[id] == Requeueing && State() == S.RunFrom(cfg, s, before)
      modifies this, queue
      ensures Valid() && State() == S.RunFrom(cfg, s, trace)
      ensures queue.State() == Enqueue(old(queue.State()), id) && repo.rows == old(repo.rows)
      ensures held == old(held)[id := Acking] && hand == old(hand) && accidents == old(accidents)
    {
      ghost var failed := State();
      queue.Enqueue(id);
      held := held[id := Acking];
      assert State() == S.Apply(cfg, failed, S.On(id, RequeueJob));
      S.ContinueWith(cfg, s, before, failed, S.On(id, RequeueJob), State());
      trace := before + [S.On(id, RequeueJob)];
    }

    /** Where the stream stands at node `node`, compared with where it began. */
    ghost predicate Streaming(id: Id, attempts: nat, outcomes: Node -> NodeOutcome, s: S.System,
                              trace: seq<S.Action>, node: Node, final: map<Node, Output>, ended: bool)
      requires id in s.rows
      reads this, repo, queue
    {
      && State() == S.RunFrom(cfg, s, trace) && queue.State() == s.q
      && id in repo.rows && repo.rows == s.rows[id := repo.rows[id]]
      && StreamFrom(s.rows[id], ENTRY, map[], outcomes)
         == (if ended then Streamed(repo.rows[id], final, None) else StreamFrom(repo.rows[id], node, final, outcomes))
      && held == s.held[id := if ended then Finishing(final) else Driving(attempts, node, final)]
      && hand == s.hand && accidents == s.accidents
    }

    /** Checkpoint one node. */
    method SaveNode(id: Id, attempts: nat, node: Node, final: map<Node, Output>, output: Output, review: bool)
      requires Valid() && id in repo.rows && id in held && held[id] == Driving(attempts, node, final)
      modifies this, repo
      ensures Valid() && State() == S.Apply(cfg, old(State()), S.On(id, RunNode(output, review)))
      ensures repo.rows == old(repo.rows)[id := RequestRow.SaveStep(old(repo.rows)[id], node, output)]
      ensures var next, more := Successor(node, review), final[node := output];
              held == old(held)[id := if next.Some? then Driving(attempts, next.value, more) else Finishing(more)]
      ensures queue.State() == old(queue.State()) && hand == old(hand) && accidents == old(accidents)
    {
      repo.SaveStep(id, node, output);
      var next, more := Successor(node, review), final[node := output];
      held := held[id := if next.Some? then Driving(attempts, next.value, more) else Finishing(more)];
    }

    /** Go on from a node that is done. */
    method Checkpoint(id: Id, attempts: nat, outcomes: Node -> NodeOutcome, ghost s: S.System,
                      ghost before: seq<S.Action>, node: Node, final: map<Node, Output>)
      returns (next: Option<Node>, ghost trace: seq<S.Action>)
      requires id in s.rows && Valid() && Streaming(id, attempts, outcomes, s, before, node, final, false)
      requires outcomes(node).Done?
      modifies this, repo
      ensures next == Successor(node, outcomes(node).review)
      ensures Valid()
      ensures var more := final[node := outcomes(node).output];
              if next.Some? then Streaming(id, attempts, outcomes, s, trace, next.value, more, false)
              else Streaming(id, attempts, outcomes, s, trace, node, more, true)
    {
      var output, review := outcomes(node).output, outcomes(node).review;
      ghost var here, step := State(), S.On(id, RunNode(output, review));
      StreamGoesOn(repo.rows[id], node, final, outcomes);
      next := Successor(node, review);
      SaveNode(id, attempts, node, final, output, review);
      S.ContinueWith(cfg, s, before, here, step, State());
      trace := before + [step];
    }

    /** Run and checkpoint node after node until the graph ends or a node raises. */
    method Stream(id: Id, attempts: nat, outcomes: Node -> NodeOutcome)
      returns (final: map<Node, Output>, raised: Option<NodeOutcome>, ghost trace: seq<S.Action>)
      requires Valid() && id in repo.rows && id in held && held[id] == Driving(attempts, ENTRY, map[])
      modifies this, repo
      ensures Valid() && State() == S.RunFrom(cfg, old(State()), trace)
      ensures var end := StreamFrom(old(repo.rows)[id], ENTRY, map[], outcomes);
              repo.rows == old(repo.rows)[id := end.row] && final == end.final && raised == end.raised
      ensures id in held && held == old(held)[id := held[id]] && hand == old(hand) && accidents == old(accidents)
      ensures if raised.None? then held[id] == Finishing(final) else held[id].Driving? && held[id].attempts == attempts
    {
      ghost var s := State();
      var node, streaming := ENTRY, true;
      final, raised, trace := map[], None, [];
      while streaming
        invariant Valid() && Streaming(id, attempts, outcomes, s, trace, node, final, !streaming)
        decreases if streaming then 9 - Rank(node) else 0
      {
        if !outcomes(node).Done? {
          raised := Some(outcomes(node));
          return;
        }
        EdgesClimb(node, outcomes(node).review);
        var next;
        next, trace := Checkpoint(id, attempts, outcomes, s, trace, node, final);
        final := final[node := outcomes(node).output];
        if next.Some? {
          node := next.value;
        } else {
          streaming := false;
        }
      }
    }

    /** The guarded part: stream and finalise, or record the failure. */
    method Drive(id: Id, attempts: nat, outcomes: Node -> NodeOutcome) returns (ghost trace: seq<S.Action>)
      requires Valid() && id in repo.rows && id in held && held[id] == Driving(attempts, ENTRY, map[])
      modifies this, repo, queue
      ensures Valid() && State() == S.RunFrom(cfg, old(State()), trace)
      ensures var (requeue, r) := AfterBegin(cfg.maxAttempts, old(repo.rows)[id], attempts, outcomes);
              && repo.rows == old(repo.rows)[id := r]
              && queue.State() == if requeue then Enqueue(old(queue.State()), id) else old(queue.State())
      ensures held == old(held)[id := Acking] && hand == old(hand) && accidents == old(accidents)
    {
      ghost var s0 := State();
      var final, raised;
      final, raised, trace := Stream(id, attempts, outcomes);
      ghost var s1 := State();
      if raised.None? {
        FinalizeRun(id, final);
        S.ContinueWith(cfg, s0, trace, s1, S.On(id, FinalizeDrive), State());
        trace := trace + [S.On(id, FinalizeDrive)];
      } else {
        ghost var failed := HandleFailure(id, attempts, raised.value.Transient?, raised.value.text);
        S.Continue(cfg, s0, trace, s1, failed, State());
        trace := trace + failed;
      }
    }

    /** Drive one claimed request through the pipeline: its row, and whether it is queued again, are what
        `Driven` makes of the way its nodes end; then the job is ready for the ack. */
    method ProcessRequest(id: Id, outcomes: Node -> NodeOutcome) returns (ghost trace: seq<S.Action>)
      requires Valid() && id in held && held[id] == Claimed
      modifies this, repo, queue
      ensures Valid() && State() == S.RunFrom(cfg, old(State()), trace)
      ensures (repo.rows, queue.State())
              == AfterProcess(cfg.maxAttempts, old(repo.rows), old(queue.State()), id, outcomes)
      ensures id in repo.rows ==> repo.rows[id].status != Running
      ensures held == old(held)[id := Acking] && hand == old(hand) && accidents == old(accidents)
    {
      ghost var rows, q := repo.rows, queue.State();
      trace := BeginAndDrive(id, outcomes);
      ProcessedNotRunning(cfg.maxAttempts, rows, q, id, outcomes);
    }

    method BeginAndDrive(id: Id, outcomes: Node -> NodeOutcome) returns (ghost trace: seq<S.Action>)
      requires Valid() && id in held && held[id] == Claimed
      modifies this, repo, queue
      ensures Valid() && State() == S.RunFrom(cfg, old(State()), trace)
      ensures (repo.rows, queue.State())
              == AfterProcess(cfg.maxAttempts, old(repo.rows), old(queue.State()), id, outcomes)
      ensures held == old(held)[id := Acking] && hand == old(hand) && accidents == old(accidents)
    {
      ghost var s0 := State();
      AfterProcessIs(cfg.maxAttempts, repo.rows, queue.State(), id, outcomes);
      var attempts := Begin(id);
      ghost var s1 := State();
      S.ContinueWith(cfg, s0, [], s0, S.On(id, BeginDrive), s1);
      trace := [] + [S.On(id, BeginDrive)];
      if attempts.Some? {
        ghost var driven := Drive(id, attempts.value, outcomes);
        S.Continue(cfg, s0, trace, s1, driven, State());
        trace := trace + driven;
      }
    }

    method TakeClaim(now: int) returns (claimed: Option<Id>)
      requires Valid()
      requires queue.pending != [] ==> queue.pending[|queue.pending| - 1] !in held
      modifies this, queue
      ensures Valid() && State() == S.Apply(cfg, old(State()), S.ClaimNext(now))
      ensures claimed == Next(old(queue.State())) && queue.State() == Claim(old(queue.State()), now)
      ensures claimed.Some? ==> claimed.value !in old(held) && held == old(held)[claimed.value := Claimed]
      ensures claimed.None? ==> State() == old(State())
      ensures repo.rows == old(repo.rows) && hand == old(hand) && accidents == old(accidents)
    {
      claimed := queue.Claim(now);
      if claimed.Some? {
        held := held[claimed.value := Claimed];
      }
    }

    method AckClaim(id: Id)
      requires Valid() && id in held && held[id] == Acking
      modifies this, queue
      ensures Valid() && State() == S.Apply(cfg, old(State()), S.On(id, AckJob))
      ensures queue.State() == Ack(old(queue.State()), id) && held == old(held) - {id}
      ensures repo.rows == old(repo.rows) && hand == old(hand) && accidents == old(accidents)
    {
      queue.Ack(id);
      held := held - {id};
    }

    /** Process a claimed job, then ack it whatever came of it. */
    method HandleClaim(id: Id, outcomes: Node -> NodeOutcome) returns (ghost trace: seq<S.Action>)
      requires Valid() && id in held && held[id] == Claimed
      modifies this, repo, queue
      ensures Valid() && State() == S.RunFrom(cfg, old(State()), trace)
      ensures (repo.rows, queue.State())
              == AfterTurn(cfg.maxAttempts, old(repo.rows), old(queue.State()), id, outcomes)
      ensures held == old(held) - {id} && hand == old(hand) && accidents == old(accidents)
    {
      ghost var s0 := State();
      trace := ProcessRequest(id, outcomes);
      ghost var s1 := State();
      AckClaim(id);
      S.ContinueWith(cfg, s0, trace, s1, S.On(id, AckJob), State());
      trace := trace + [S.On(id, AckJob)];
    }

    /** One turn of the worker loop.  Exclusive claims: the next job is not held already. */
    method RunOnce(now: int, outcomes: Node -> NodeOutcome) returns (claimed: Option<Id>, ghost trace: seq<S.Action>)
      requires Valid()
      requires queue.pending != [] ==> queue.pending[|queue.pending| - 1] !in held
      modifies this, repo, queue
      ensures Valid() && State() == S.RunFrom(cfg, old(State()), trace)
      ensures claimed == Next(old(queue.State()))
      ensures claimed.None? ==> State() == old(State())
      ensures claimed.Some? ==>
                (repo.rows, queue.State())
                == AfterTurn(cfg.maxAttempts, old(repo.rows), Claim(old(queue.State()), now), claimed.value, outcomes)
      ensures claimed.Some? ==>
                && queue.processing == old(queue.processing)
                && claimed.value !in queue.beats && claimed.value !in queue.deliveries
      ensures held == old(held) && hand == old(hand) && accidents == old(accidents)
    {
      ghost var s0 := State();
      claimed := TakeClaim(now);
      ghost var s1 := State();
      trace := [];
      if claimed.Some? {
        TurnLeaves(cfg.maxAttempts, old(repo.rows), old(queue.State()), now, outcomes);
        S.ContinueWith(cfg, s0, [], s0, S.ClaimNext(now), s1);
        ghost var handled := HandleClaim(claimed.value, outcomes);
        HeldAgain(s0.held, claimed.value, Claimed);
        S.Continue(cfg, s0, [] + [S.ClaimNext(now)], s1, handled, State());
        trace := [] + [S.ClaimNext(now)] + handled;
      }
    }
  }
}
