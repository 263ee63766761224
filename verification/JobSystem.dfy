/** The whole system: one queue, one database, any number of workers, API processes and operators.  Each request
    sees exactly the life of `JobLifecycle`, so what is proved there holds of every request at once. */
module JobSystem {
  import opened RedisLists
  import opened QueueModel
  import opened PipelineGraph
  import opened RequestRow
  import L = JobLifecycle

  /** `held`: the drives in progress by request, which is the exclusive-claims assumption; `hand` and
      `accidents`: enqueues that API processes owe, and crashes with one owed or exceptions that escaped a worker. */
  datatype System = System(
    q: Queue,
    rows: map<Id, Row>,
    held: map<Id, L.Phase>,
    hand: multiset<Id>,
    accidents: multiset<Id>)

  function Start(): System { System(EMPTY, map[], map[], multiset{}, multiset{}) }

  /** `On`: a step of some process about one request; claims and reaps pick their requests from the queue. */
  datatype Action = On(id: Id, step: L.JobStep) | ClaimNext(now: int) | ReapAll(now: int)

  function Hold(held: map<Id, L.Phase>, id: Id, p: L.Phase): map<Id, L.Phase> {
    if p.Unheld? then held - {id} else held[id := p]
  }

  function Apply(cfg: L.Settings, s: System, a: Action): System {
    match a
    case ClaimNext(now) =>
      if s.q.pending == [] || Next(s.q).value in s.held then s
      else s.(q := Claim(s.q, now), held := s.held[Next(s.q).value := L.Claimed])
    case ReapAll(now) => s.(q := Reap(cfg.queue, s.q, now))
    case On(id, step) => ApplyOn(cfg, s, id, step)
  }

  function ApplyOn(cfg: L.Settings, s: System, id: Id, step: L.JobStep): System {
    match step
    case Submit => if id in s.rows then s else s.(rows := s.rows[id := SUBMITTED], hand := s.hand[id := s.hand[id] + 1])
    case RetryRequest =>
      if id in s.rows && Retry(s.rows[id]).Some?
      then s.(rows := s.rows[id := Retry(s.rows[id]).value], hand := s.hand[id := s.hand[id] + 1]) else s
    case ApiEnqueue => if id in s.hand then s.(q := Enqueue(s.q, id), hand := s.hand[id := s.hand[id] - 1]) else s
    case ApiCrash =>
      if id in s.hand
      then s.(hand := s.hand[id := s.hand[id] - 1], accidents := s.accidents[id := s.accidents[id] + 1]) else s
    case ReplayJob => s.(q := RequeueFromDead(s.q, id))
    case WorkerCrash => s.(held := s.held - {id})
    case _ => if id in s.held then WorkerStep(cfg, s, id, step) else s
  }

  /** The worker that holds `id` takes its next step. */
  function WorkerStep(cfg: L.Settings, s: System, id: Id, step: L.JobStep): System
    requires id in s.held
  {
    var p := s.held[id];
    match step
    case BeginDrive =>
      if !p.Claimed? then s
      else if id !in s.rows then s.(held := s.held[id := L.Acking])
      else
        var (attempts, r) := Begin(s.rows[id]);
        s.(rows := s.rows[id := r],
           held := s.held[id := if attempts.Some? then L.Driving(attempts.value, ENTRY, map[]) else L.Acking])
    case RunNode(output, review) =>
      if !p.Driving? || id !in s.rows then s
      else
        var (r, p1) := L.DriveNode(s.rows[id], p, output, review);
        s.(rows := s.rows[id := r], held := Hold(s.held, id, p1))
    case FailDrive(retryable, text) =>
      if !p.Driving? then s
      else if id !in s.rows then s.(held := s.held[id := L.Acking])
      else
        var (requeue, r) := Fail(cfg.maxAttempts, s.rows[id], p.attempts, retryable, text);
        s.(rows := s.rows[id := r], held := s.held[id := if requeue then L.Requeueing else L.Acking])
    case FinalizeDrive =>
      if !p.Finishing? then s
      else if id !in s.rows then s.(held := s.held[id := L.Acking])
      else s.(rows := s.rows[id := Finalize(s.rows[id], p.final)], held := s.held[id := L.Acking])
    case RequeueJob =>
      if !p.Requeueing? then s else s.(q := Enqueue(s.q, id), held := s.held[id := L.Acking])
    case RaiseOut =>
      if p.Unheld? || p.Acking? then s
      else s.(held := s.held[id := L.Acking], accidents := s.accidents[id := s.accidents[id] + 1])
    case AckJob =>
      if !p.Acking? then s else s.(q := Ack(s.q, id), held := s.held - {id})
    case _ => s
  }

  function RunFrom(cfg: L.Settings, s: System, actions: seq<Action>): System {
    if actions == [] then s else Apply(cfg, RunFrom(cfg, s, actions[..|actions| - 1]), actions[|actions| - 1])
  }

  lemma RunsExtend(cfg: L.Settings, s: System, actions: seq<Action>, a: Action)
    ensures RunFrom(cfg, s, actions + [a]) == Apply(cfg, RunFrom(cfg, s, actions), a)
  {
    assert (actions + [a])[..|actions|] == actions;
  }

  lemma {:induction false} RunsCompose(cfg: L.Settings, s: System, first: seq<Action>, second: seq<Action>)
    ensures RunFrom(cfg, s, first + second) == RunFrom(cfg, RunFrom(cfg, s, first), second)
  {
    if second == [] {
      assert first + second == first;
    } else {
      var n := |second| - 1;
      assert (first + second)[..|first + second| - 1] == first + second[..n];
      RunsCompose(cfg, s, first, second[..n]);
    }
  }

  /** `second` continues a run that has brought `s` to `mid`. */
  lemma Continue(cfg: L.Settings, s: System, first: seq<Action>, mid: System, second: seq<Action>, end: System)
    requires RunFrom(cfg, s, first) == mid && RunFrom(cfg, mid, second) == end
    ensures RunFrom(cfg, s, first + second) == end
  {
    RunsCompose(cfg, s, first, second);
  }

  lemma ContinueWith(cfg: L.Settings, s: System, first: seq<Action>, mid: System, a: Action, end: System)
    requires RunFrom(cfg, s, first) == mid && Apply(cfg, mid, a) == end
    ensures RunFrom(cfg, s, first + [a]) == end
  {
    RunsExtend(cfg, s, first, a);
  }

  function Run(cfg: L.Settings, actions: seq<Action>): System { RunFrom(cfg, Start(), actions) }

  // ----- one request's view -----

  function View(s: System, id: Id): L.Job {
    L.Job(SlotOf(s.q, id),
          if id in s.rows then Some(s.rows[id]) else None,
          if id in s.held then s.held[id] else L.Unheld,
          s.hand[id], s.accidents[id])
  }

  function LocalStep(s: System, a: Action, id: Id): L.JobStep {
    match a
    case On(x, step) => if x == id && !step.TakeClaim? && !step.ReapJobs? then step else L.Stutter
    case ClaimNext(now) => if Next(s.q) == Some(id) && id !in s.held then L.TakeClaim(now) else L.Stutter
    case ReapAll(now) => L.ReapJobs(now)
  }

  function LocalSteps(cfg: L.Settings, actions: seq<Action>, id: Id): seq<L.JobStep> {
    if actions == [] then []
    else
      var before := actions[..|actions| - 1];
      LocalSteps(cfg, before, id) + [LocalStep(Run(cfg, before), actions[|actions| - 1], id)]
  }

  ghost predicate NoIdleHolder(s: System) { forall id :: id in s.held ==> !s.held[id].Unheld? }

  lemma WorkerKeepsHolder(cfg: L.Settings, s: System, x: Id, step: L.JobStep, id: Id)
    requires x in s.held && !s.held[x].Unheld? && (id in s.held ==> !s.held[id].Unheld?)
    ensures var t := WorkerStep(cfg, s, x, step); id in t.held ==> !t.held[id].Unheld?
  {
  }

  lemma StepKeepsHolder(cfg: L.Settings, s: System, a: Action, id: Id)
    requires NoIdleHolder(s)
    ensures id in Apply(cfg, s, a).held ==> !Apply(cfg, s, a).held[id].Unheld?
  {
    if a.On? && a.id in s.held { WorkerKeepsHolder(cfg, s, a.id, a.step, id); }
  }

  lemma StepKeepsHolders(cfg: L.Settings, s: System, a: Action)
    requires NoIdleHolder(s)
    ensures NoIdleHolder(Apply(cfg, s, a))
  {
    forall id | id in Apply(cfg, s, a).held ensures !Apply(cfg, s, a).held[id].Unheld? {
      StepKeepsHolder(cfg, s, a, id);
    }
  }

  lemma ClaimRefines(cfg: L.Settings, s: System, now: int, id: Id)
    requires NoIdleHolder(s)
    ensures View(Apply(cfg, s, ClaimNext(now)), id) == L.Apply(cfg, View(s, id), LocalStep(s, ClaimNext(now), id))
  {
    ClaimSlot(s.q, now, id);
  }

  predicate IsWorkerStep(step: L.JobStep) {
    step.BeginDrive? || step.RunNode? || step.FailDrive? || step.FinalizeDrive? || step.RequeueJob? || step.AckJob?
    || step.RaiseOut?
  }

  lemma RowStepIsLocal(cfg: L.Settings, s: System, x: Id, step: L.JobStep, id: Id)
    requires x in s.held && x != id && !step.RequeueJob? && !step.AckJob?
    ensures View(WorkerStep(cfg, s, x, step), id) == View(s, id)
  {
    assert WorkerStep(cfg, s, x, step).q == s.q;
  }

  lemma WorkerStepIsLocal(cfg: L.Settings, s: System, x: Id, step: L.JobStep, id: Id)
    requires x in s.held && x != id
    ensures View(WorkerStep(cfg, s, x, step), id) == View(s, id)
  {
    if step.RequeueJob? {
      EnqueueSlot(s.q, x, id);
    } else if step.AckJob? {
      AckSlot(s.q, x, id);
    } else {
      RowStepIsLocal(cfg, s, x, step, id);
    }
  }

  lemma QueueStepRefines(cfg: L.Settings, s: System, id: Id, step: L.JobStep)
    requires NoIdleHolder(s) && id in s.held && (step.RequeueJob? || step.AckJob?)
    ensures View(WorkerStep(cfg, s, id, step), id) == L.Apply(cfg, View(s, id), step)
  {
    EnqueueSlot(s.q, id, id);
    AckSlot(s.q, id, id);
  }

  lemma RowStepRefines(cfg: L.Settings, s: System, id: Id, step: L.JobStep)
    requires NoIdleHolder(s) && id in s.held
    requires step.BeginDrive? || step.RunNode? || step.FailDrive? || step.FinalizeDrive? || step.RaiseOut?
    ensures View(WorkerStep(cfg, s, id, step), id) == L.Apply(cfg, View(s, id), step)
  {
    assert WorkerStep(cfg, s, id, step).q == s.q;
  }

  lemma QueueOpRefines(cfg: L.Settings, s: System, x: Id, step: L.JobStep, id: Id)
    requires NoIdleHolder(s) && (step.ApiEnqueue? || step.ReplayJob?)
    ensures View(ApplyOn(cfg, s, x, step), id) == L.Apply(cfg, View(s, id), LocalStep(s, On(x, step), id))
  {
    EnqueueSlot(s.q, x, id);
    ReplaySlot(s.q, x, id);
  }

  /** Steps of the API, operators and crashes that do not touch the queue. */
  predicate IsApiStep(step: L.JobStep) { !IsWorkerStep(step) && !step.ApiEnqueue? && !step.ReplayJob? }

  lemma ApiStepIsLocal(cfg: L.Settings, s: System, x: Id, step: L.JobStep, id: Id)
    requires IsApiStep(step) && x != id
    ensures View(ApplyOn(cfg, s, x, step), id) == View(s, id)
  {
    assert ApplyOn(cfg, s, x, step).q == s.q;
  }

  lemma OwnApiStepRefines(cfg: L.Settings, s: System, id: Id, step: L.JobStep)
    requires NoIdleHolder(s) && IsApiStep(step) && !step.TakeClaim? && !step.ReapJobs?
    ensures View(ApplyOn(cfg, s, id, step), id) == L.Apply(cfg, View(s, id), step)
  {
    assert ApplyOn(cfg, s, id, step).q == s.q;
  }

  lemma ApiStepRefines(cfg: L.Settings, s: System, x: Id, step: L.JobStep, id: Id)
    requires NoIdleHolder(s) && IsApiStep(step)
    ensures View(ApplyOn(cfg, s, x, step), id) == L.Apply(cfg, View(s, id), LocalStep(s, On(x, step), id))
  {
    if x != id {
      ApiStepIsLocal(cfg, s, x, step, id);
    } else if step.TakeClaim? || step.ReapJobs? {
      assert ApplyOn(cfg, s, x, step) == s;
    } else {
      OwnApiStepRefines(cfg, s, id, step);
    }
  }

  /** Nobody holds the job: a worker's step is a no-op on both sides. */
  lemma UnheldRefines(cfg: L.Settings, s: System, x: Id, step: L.JobStep, id: Id)
    requires NoIdleHolder(s) && IsWorkerStep(step) && x !in s.held
    ensures View(ApplyOn(cfg, s, x, step), id) == L.Apply(cfg, View(s, id), LocalStep(s, On(x, step), id))
  {
  }

  lemma HeldRefines(cfg: L.Settings, s: System, x: Id, step: L.JobStep, id: Id)
    requires NoIdleHolder(s) && IsWorkerStep(step) && x in s.held
    ensures View(WorkerStep(cfg, s, x, step), id) == L.Apply(cfg, View(s, id), LocalStep(s, On(x, step), id))
  {
    if x != id {
      WorkerStepIsLocal(cfg, s, x, step, id);
    } else if step.RequeueJob? || step.AckJob? {
      QueueStepRefines(cfg, s, id, step);
    } else {
      RowStepRefines(cfg, s, id, step);
    }
  }

  lemma OnRefines(cfg: L.Settings, s: System, x: Id, step: L.JobStep, id: Id)
    requires NoIdleHolder(s)
    ensures View(ApplyOn(cfg, s, x, step), id) == L.Apply(cfg, View(s, id), LocalStep(s, On(x, step), id))
  {
    if step.ApiEnqueue? || step.ReplayJob? {
      QueueOpRefines(cfg, s, x, step, id);
    } else if !IsWorkerStep(step) {
      ApiStepRefines(cfg, s, x, step, id);
    } else if x !in s.held {
      UnheldRefines(cfg, s, x, step, id);
    } else {
      HeldRefines(cfg, s, x, step, id);
      assert ApplyOn(cfg, s, x, step) == WorkerStep(cfg, s, x, step);
    }
  }

  /** Refinement, step by step: whatever the system does, each request's view takes one step of its own life. */
  lemma StepRefines(cfg: L.Settings, s: System, a: Action, id: Id)
    requires NoIdleHolder(s)
    ensures View(Apply(cfg, s, a), id) == L.Apply(cfg, View(s, id), LocalStep(s, a, id))
  {
    match a
    case ClaimNext(now) => ClaimRefines(cfg, s, now, id);
    case ReapAll(now) => ReapSlot(cfg.queue, s.q, now, id);
    case On(x, step) => OnRefines(cfg, s, x, step, id);
  }

  lemma StartIsAbsent(id: Id)
    ensures L.Absent(View(Start(), id))
  {
  }

  /** Refinement of whole runs, for every request. */
  lemma {:induction false} RunRefines(cfg: L.Settings, actions: seq<Action>, id: Id)
    ensures NoIdleHolder(Run(cfg, actions))
    ensures View(Run(cfg, actions), id) == L.Run(cfg, View(Start(), id), LocalSteps(cfg, actions, id))
  {
    if actions != [] {
      var before, a := actions[..|actions| - 1], actions[|actions| - 1];
      RunRefines(cfg, before, id);
      StepRefines(cfg, Run(cfg, before), a, id);
      StepKeepsHolders(cfg, Run(cfg, before), a);
      var steps := LocalSteps(cfg, actions, id);
      assert steps[..|steps| - 1] == LocalSteps(cfg, before, id);
    }
  }

  // ----- the promises, for all requests at once -----

  predicate InNoList(s: System, id: Id) { id !in s.q.pending && id !in s.q.processing && id !in s.q.dead }

  /** The request is open, in no list, and no API process is going to enqueue it. */
  predicate Lost(s: System, id: Id) { id in s.rows && Live(s.rows[id]) && id !in s.hand && InNoList(s, id) }

  /** The actions that lose a request. */
  predicate Loses(s: System, a: Action, id: Id) {
    && id in s.rows && Live(s.rows[id])
    && (|| (a == On(id, L.ApiCrash) && s.hand[id] == 1 && InNoList(s, id))
        || (a == On(id, L.AckJob) && id in s.held && s.held[id].Acking? && id !in s.hand
            && id !in s.q.pending && id !in s.q.dead && Count(s.q.processing, id) == 1))
  }

  predicate EverLoses(cfg: L.Settings, actions: seq<Action>, id: Id) {
    actions != [] && (
      var before := actions[..|actions| - 1];
      EverLoses(cfg, before, id) || Loses(Run(cfg, before), actions[|actions| - 1], id))
  }

  lemma LostIsLocal(s: System, id: Id)
    ensures Lost(s, id) <==> L.Lost(View(s, id))
  {
    CountIn(s.q.pending, id);
    CountIn(s.q.processing, id);
    CountIn(s.q.dead, id);
  }

  lemma LosesIsLocal(s: System, a: Action, id: Id)
    ensures Loses(s, a, id) <==> L.Loses(View(s, id), LocalStep(s, a, id))
  {
    CountIn(s.q.pending, id);
    CountIn(s.q.processing, id);
    CountIn(s.q.dead, id);
  }

  lemma {:induction false} EverLosesIsLocal(cfg: L.Settings, actions: seq<Action>, id: Id)
    ensures EverLoses(cfg, actions, id) <==> L.EverLoses(cfg, View(Start(), id), LocalSteps(cfg, actions, id))
  {
    if actions != [] {
      var before, a := actions[..|actions| - 1], actions[|actions| - 1];
      EverLosesIsLocal(cfg, before, id);
      RunRefines(cfg, before, id);
      LosesIsLocal(Run(cfg, before), a, id);
      var steps := LocalSteps(cfg, actions, id);
      assert steps[..|steps| - 1] == LocalSteps(cfg, before, id);
    }
  }

  /** No lost work in the whole system, exactly: a live request is in some list or about to be enqueued if and only
      if no losing action ever hit it. */
  lemma SystemLosesNoWork(cfg: L.Settings, actions: seq<Action>, id: Id)
    ensures Lost(Run(cfg, actions), id) <==> EverLoses(cfg, actions, id)
    ensures id !in Run(cfg, actions).accidents ==> !Lost(Run(cfg, actions), id)
  {
    RunRefines(cfg, actions, id);
    StartIsAbsent(id);
    EverLosesIsLocal(cfg, actions, id);
    LostIsLocal(Run(cfg, actions), id);
    L.NoLostWork(cfg, View(Start(), id), LocalSteps(cfg, actions, id));
  }

  lemma LocalStepsOfOneMore(cfg: L.Settings, actions: seq<Action>, a: Action, id: Id) returns (last: L.JobStep)
    ensures LocalSteps(cfg, actions + [a], id) == LocalSteps(cfg, actions, id) + [last]
  {
    assert (actions + [a])[..|actions|] == actions;
    last := LocalStep(Run(cfg, actions), a, id);
  }

  /** A longer run of the system is a longer life of each request. */
  lemma {:induction false} LocalStepsOfLonger(cfg: L.Settings, actions: seq<Action>, more: seq<Action>, id: Id)
    returns (rest: seq<L.JobStep>)
    ensures LocalSteps(cfg, actions + more, id) == LocalSteps(cfg, actions, id) + rest
  {
    if more == [] {
      assert actions + more == actions;
      rest := [];
    } else {
      var front, a := more[..|more| - 1], more[|more| - 1];
      var early := LocalStepsOfLonger(cfg, actions, front, id);
      var last := LocalStepsOfOneMore(cfg, actions + front, a, id);
      assert more == front + [a];
      assert actions + more == (actions + front) + [a];
      rest := early + [last];
      Reassociate(LocalSteps(cfg, actions, id), early, [last]);
    }
  }

  /** Saved outputs, artifacts and the statuses COMPLETED and NEEDS_REVIEW never change again, in any run. */
  lemma SystemHistoryOnlyGrows(cfg: L.Settings, actions: seq<Action>, more: seq<Action>, id: Id)
    ensures L.Extends(View(Run(cfg, actions), id).row, View(Run(cfg, actions + more), id).row)
  {
    RunRefines(cfg, actions, id);
    RunRefines(cfg, actions + more, id);
    StartIsAbsent(id);
    var rest := LocalStepsOfLonger(cfg, actions, more, id);
    L.HistoryOnlyGrows(cfg, View(Start(), id), LocalSteps(cfg, actions, id), rest);
  }

  /** No request of the system ever has two artifacts of one kind. */
  lemma SystemFinalisesOnce(cfg: L.Settings, actions: seq<Action>, id: Id)
    requires id in Run(cfg, actions).rows
    ensures OnePerKind(Run(cfg, actions).rows[id].artifacts)
  {
    RunRefines(cfg, actions, id);
    StartIsAbsent(id);
    L.FinalisedAtMostOnce(cfg, View(Start(), id), LocalSteps(cfg, actions, id));
  }

  /** The system's database always agrees with its checkpoints. */
  lemma SystemCheckpointsAgree(cfg: L.Settings, actions: seq<Action>, id: Id)
    requires id in Run(cfg, actions).rows
    ensures var r := Run(cfg, actions).rows[id];
            && PathClosed(r.steps.Keys)
            && (r.status == Completed ==> GenerateReport in r.steps)
            && (r.status == NeedsReview ==> HumanReview in r.steps)
  {
    RunRefines(cfg, actions, id);
    StartIsAbsent(id);
    L.RunKeepsInv(cfg, View(Start(), id), LocalSteps(cfg, actions, id));
  }
}
