/** The API's side of the protocol: a commit first, the enqueue afterwards. */
module ApiProcess {
  import opened RedisLists
  import opened QueueModel
  import opened RequestRow
  import opened JobLifecycle
  import Q = JobQueueClass
  import S = JobSystem
  import W = WorkerProcess

  datatype RetryAnswer = Accepted | NotFound | NotFailed(status: Status)

  /** Submissions, in order, and the enqueues that follow their commit. */
  function Submits(ids: seq<Id>): (r: seq<S.Action>)
    ensures |r| == |ids|
  {
    if ids == [] then [] else Submits(ids[..|ids| - 1]) + [S.On(ids[|ids| - 1], Submit)]
  }

  function Enqueues(ids: seq<Id>): (r: seq<S.Action>)
    ensures |r| == |ids|
  {
    if ids == [] then [] else Enqueues(ids[..|ids| - 1]) + [S.On(ids[|ids| - 1], ApiEnqueue)]
  }

  lemma OneOwed(id: Id, rest: seq<Id>, base: multiset<Id>)
    ensures id in base + multiset([id] + rest)
    ensures base + multiset([id] + rest) - multiset{id} == base + multiset(rest)
  {
  }

  lemma OneMoreOwed(ids: seq<Id>, i: nat, base: multiset<Id>)
    requires i < |ids|
    ensures base + multiset(ids[..i]) + multiset{ids[i]} == base + multiset(ids[..i + 1])
  {
    assert ids[..i + 1] == ids[..i] + [ids[i]];
  }

  lemma NextIsNew(ids: seq<Id>, i: nat)
    requires Distinct(ids) && i < |ids|
    ensures ids[i] !in ids[..i]
    ensures forall id :: id in ids[..i + 1] <==> id in ids[..i] || id == ids[i]
  {
    assert ids[..i + 1] == ids[..i] + [ids[i]];
  }

  /** The committed rows are the earlier ones and those of `ids`. */
  ghost predicate Known(rows: map<Id, Row>, before: map<Id, Row>, ids: seq<Id>) {
    forall id :: id in rows <==> id in before || id in ids
  }

  class Api {
    const cfg: Settings
    const repo: W.Repository
    const queue: Q.JobQueue
    ghost var held: map<Id, Phase>
    ghost var hand: multiset<Id>
    ghost var accidents: multiset<Id>

    ghost predicate Valid()
      reads this
    {
      queue.cfg == cfg.queue && repo as object != queue && repo as object != this && queue as object != this
    }

    ghost function State(): S.System
      reads this, repo, queue
    {
      S.System(queue.State(), repo.rows, held, hand, accidents)
    }

    constructor (cfg: Settings, repo: W.Repository, queue: Q.JobQueue)
      requires queue.cfg == cfg.queue
      ensures Valid() && this.cfg == cfg && this.repo == repo && this.queue == queue
    {
      this.cfg, this.repo, this.queue := cfg, repo, queue;
      held, hand, accidents := map[], multiset{}, multiset{};
    }

    method Commit(id: Id)
      requires Valid() && id !in repo.rows
      modifies this, repo
      ensures Valid() && State() == S.Apply(cfg, old(State()), S.On(id, Submit))
      ensures repo.rows == old(repo.rows)[id := SUBMITTED] && hand == old(hand) + multiset{id}
    {
      repo.CreateRequest(id);
      hand := hand[id := hand[id] + 1];
    }

    method EnqueueOwed(id: Id)
      requires Valid() && id in hand
      modifies this, queue
      ensures Valid() && State() == S.Apply(cfg, old(State()), S.On(id, ApiEnqueue))
      ensures hand == old(hand) - multiset{id} && repo.rows == old(repo.rows)
      ensures queue.pending == [id] + old(queue.pending)
    {
      queue.Enqueue(id);
      hand := hand[id := hand[id] - 1];
    }

    /** One request: the run of a submission and its enqueue; the API owes nothing afterwards. */
    method SubmitRequest(id: Id)
      requires Valid() && id !in repo.rows
      modifies this, repo, queue
      ensures Valid() && State() == S.RunFrom(cfg, old(State()), Submits([id]) + Enqueues([id]))
      ensures id in repo.rows && queue.pending == [id] + old(queue.pending) && hand == old(hand)
    {
      SubmitBatch([id]);
      assert PushAll([id], old(queue.pending)) == [id] + old(queue.pending);
    }

    /** Many requests: one transaction for all rows, then one enqueue after the other in the order given. */
    method SubmitBatch(ids: seq<Id>)
      requires Valid() && Distinct(ids) && forall id :: id in ids ==> id !in repo.rows
      modifies this, repo, queue
      ensures Valid() && State() == S.RunFrom(cfg, old(State()), Submits(ids) + Enqueues(ids))
      ensures Known(repo.rows, old(repo.rows), ids)
      ensures queue.pending == PushAll(ids, old(queue.pending)) && hand == old(hand)
    {
      ghost var s0 := State();
      CommitAll(ids);
      ghost var s1 := State();
      EnqueueAll(ids, s0.hand);
      S.Continue(cfg, s0, Submits(ids), s1, Enqueues(ids), State());
    }

    /** `i` of the rows are there, and as many enqueues more are owed. */
    ghost predicate Committing(ids: seq<Id>, i: nat, s0: S.System)
      requires i <= |ids|
      reads this, repo, queue
    {
      && State() == S.RunFrom(cfg, s0, Submits(ids[..i]))
      && Known(repo.rows, s0.rows, ids[..i])
      && hand == s0.hand + multiset(ids[..i]) && queue.State() == s0.q
    }

    method CommitNext(ids: seq<Id>, i: nat, ghost s0: S.System)
      requires i < |ids| && Distinct(ids) && forall id :: id in ids ==> id !in s0.rows
      requires Valid() && Committing(ids, i, s0)
      modifies this, repo
      ensures Valid() && Committing(ids, i + 1, s0)
    {
      ghost var before := State();
      assert ids[..i + 1][..i] == ids[..i];
      NextIsNew(ids, i);
      OneMoreOwed(ids, i, s0.hand);
      Commit(ids[i]);
      S.ContinueWith(cfg, s0, Submits(ids[..i]), before, S.On(ids[i], Submit), State());
    }

    method CommitAll(ids: seq<Id>)
      requires Valid() && Distinct(ids) && forall id :: id in ids ==> id !in repo.rows
      modifies this, repo
      ensures Valid() && State() == S.RunFrom(cfg, old(State()), Submits(ids))
      ensures Known(repo.rows, old(repo.rows), ids)
      ensures hand == old(hand) + multiset(ids)
    {
      ghost var s0 := State();
      var i := 0;
      while i < |ids|
        invariant 0 <= i <= |ids| && Valid() && Committing(ids, i, s0)
      {
        CommitNext(ids, i, s0);
        i := i + 1;
      }
      assert ids[..i] == ids;
    }

    /** The first `i` enqueues are done, the others still owed beside `base`. */
    ghost predicate Enqueuing(ids: seq<Id>, i: nat, base: multiset<Id>, s0: S.System)
      requires i <= |ids|
      reads this, repo, queue
    {
      && State() == S.RunFrom(cfg, s0, Enqueues(ids[..i]))
      && PushAll(ids[i..], queue.pending) == PushAll(ids, s0.q.pending)
      && hand == base + multiset(ids[i..]) && repo.rows == s0.rows
    }

    method EnqueueNext(ids: seq<Id>, i: nat, ghost base: multiset<Id>, ghost s0: S.System)
      requires i < |ids| && Valid() && Enqueuing(ids, i, base, s0)
      modifies this, queue
      ensures Valid() && Enqueuing(ids, i + 1, base, s0)
    {
      ghost var before := State();
      var id := ids[i];
      assert ids[..i + 1] == ids[..i] + [id] && ids[..i + 1][..i] == ids[..i];
      assert ids[i..] == [id] + ids[i + 1..];
      OneOwed(id, ids[i + 1..], base);
      PushAllCons(id, ids[i + 1..], queue.pending);
      EnqueueOwed(id);
      S.ContinueWith(cfg, s0, Enqueues(ids[..i]), before, S.On(id, ApiEnqueue), State());
    }

    /** The enqueues owed beside `base`. */
    method EnqueueAll(ids: seq<Id>, ghost base: multiset<Id>)
      requires Valid() && hand == base + multiset(ids)
      modifies this, queue
      ensures Valid() && State() == S.RunFrom(cfg, old(State()), Enqueues(ids))
      ensures queue.pending == PushAll(ids, old(queue.pending))
      ensures hand == base && repo.rows == old(repo.rows)
    {
      ghost var s0 := State();
      var i := 0;
      assert ids[0..] == ids;
      while i < |ids|
        invariant 0 <= i <= |ids| && Valid() && Enqueuing(ids, i, base, s0)
      {
        EnqueueNext(ids, i, base, s0);
        i := i + 1;
      }
      assert ids[..i] == ids;
    }

    /** Only a failed request is accepted; any other answer changes nothing. */
    method RetryRequest(id: Id) returns (answer: RetryAnswer)
      requires Valid()
      modifies this, repo, queue
      ensures Valid() && (answer.NotFound? <==> id !in old(repo.rows))
      ensures answer.Accepted? <==> id in old(repo.rows) && old(repo.rows)[id].status == Failed
      ensures answer.NotFailed? ==> id in old(repo.rows) && answer.status == old(repo.rows)[id].status
      ensures !answer.Accepted? ==> State() == old(State())
      ensures answer.Accepted? ==>
                && State() == S.RunFrom(cfg, old(State()), [S.On(id, JobStep.RetryRequest)] + [S.On(id, ApiEnqueue)])
                && id in repo.rows && repo.rows[id].status == Queued && repo.rows[id].attempts == 0
                && queue.pending == [id] + old(queue.pending)
    {
      if id !in repo.rows {
        return NotFound;
      }
      if repo.rows[id].status != Failed {
        return NotFailed(repo.rows[id].status);
      }
      ghost var s0 := State();
      repo.UpdateRequest(id, Queued, 0, NoError);
      hand := hand[id := hand[id] + 1];
      ghost var s1 := State();
      assert s1 == S.Apply(cfg, s0, S.On(id, JobStep.RetryRequest));
      S.ContinueWith(cfg, s0, [], s0, S.On(id, JobStep.RetryRequest), s1);
      assert [] + [S.On(id, JobStep.RetryRequest)] == [S.On(id, JobStep.RetryRequest)];
      EnqueueOwed(id);
      S.ContinueWith(cfg, s0, [S.On(id, JobStep.RetryRequest)], s1, S.On(id, ApiEnqueue), State());
      answer := Accepted;
    }
  }
}
