/** One request's share of the whole system: its copies in the queue, its row, the drive in progress, and the
    API process that still owes it an enqueue.  Every step is total: a step that is not possible changes nothing. */
module JobLifecycle {
  import opened RedisLists
  import opened QueueModel
  import opened PipelineGraph
  import opened RequestRow

  datatype Settings = Settings(queue: Config, maxAttempts: int)

  /** Where the worker that claimed the job stands.  There is room for one such worker: exclusive claims. */
  datatype Phase =
    | Unheld
    | Claimed
    | Driving(attempts: nat, next: Node, final: map<Node, Output>)
    | Finishing(final: map<Node, Output>)     // the stream ended, finalize_run outstanding
    | Requeueing                              // failure committed as QUEUED, enqueue outstanding
    | Acking                                  // process_request returned, ack outstanding

  /** `hand`: commits by the API whose enqueue is outstanding; `accidents`: how often an API process crashed with one
      outstanding, or an exception escaped the worker's handling. */
  datatype Job = Job(slot: Slot, row: Option<Row>, phase: Phase, hand: nat, accidents: nat)

  /** Nobody has heard of the request yet. */
  predicate Absent(j: Job) {
    j.slot.Nowhere() && j.slot.mark == UNMARKED && j.row.None? && j.phase.Unheld? && j.hand == 0 && j.accidents == 0
  }

  datatype JobStep =
    | Stutter
    | Submit | RetryRequest | ApiEnqueue | ApiCrash
    | TakeClaim(now: int) | BeginDrive | RunNode(output: Output, review: bool)
    | FailDrive(retryable: bool, text: string) | FinalizeDrive | RequeueJob | AckJob | WorkerCrash
    | RaiseOut                                // an exception escapes process_request; the ack still runs
    | ReapJobs(now: int) | ReplayJob

  function StartDrive(j: Job): Job {
    match j.row
    case None => j.(phase := Acking)
    case Some(r) =>
      var (attempts, r1) := Begin(r);
      j.(row := Some(r1), phase := if attempts.Some? then Driving(attempts.value, ENTRY, map[]) else Acking)
  }

  function DriveNode(r: Row, p: Phase, output: Output, review: bool): (Row, Phase)
    requires p.Driving?
  {
    var final := p.final[p.next := output];
    var next := Successor(p.next, review);
    (SaveStep(r, p.next, output),
     if next.Some? then Driving(p.attempts, next.value, final) else Finishing(final))
  }

  function Apply(cfg: Settings, j: Job, step: JobStep): Job {
    match step
    case Stutter => j
    case Submit => if j.row.None? then j.(row := Some(SUBMITTED), hand := j.hand + 1) else j
    case RetryRequest =>
      if j.row.Some? && Retry(j.row.value).Some? then j.(row := Retry(j.row.value), hand := j.hand + 1) else j
    case ApiEnqueue => if j.hand > 0 then j.(slot := SlotEnqueue(j.slot), hand := j.hand - 1) else j
    case ApiCrash => if j.hand > 0 then j.(hand := j.hand - 1, accidents := j.accidents + 1) else j
    case TakeClaim(now) =>
      if j.phase.Unheld? && j.slot.pending > 0 then j.(slot := SlotClaim(j.slot, now), phase := Claimed) else j
    case BeginDrive => if j.phase.Claimed? then StartDrive(j) else j
    case RunNode(output, review) =>
      if j.phase.Driving? && j.row.Some? then
        var (r, p) := DriveNode(j.row.value, j.phase, output, review);
        j.(row := Some(r), phase := p)
      else j
    case FailDrive(retryable, text) =>
      if j.phase.Driving? && j.row.None? then j.(phase := Acking)
      else if j.phase.Driving? then
        var (requeue, r) := Fail(cfg.maxAttempts, j.row.value, j.phase.attempts, retryable, text);
        j.(row := Some(r), phase := if requeue then Requeueing else Acking)
      else j
    case FinalizeDrive =>
      if j.phase.Finishing? && j.row.None? then j.(phase := Acking)
      else if j.phase.Finishing? then
        j.(row := Some(Finalize(j.row.value, j.phase.final)), phase := Acking)
      else j
    case RequeueJob => if j.phase.Requeueing? then j.(slot := SlotEnqueue(j.slot), phase := Acking) else j
    case AckJob => if j.phase.Acking? then j.(slot := SlotAck(j.slot), phase := Unheld) else j
    case WorkerCrash => j.(phase := Unheld)
    case RaiseOut =>
      if j.phase.Unheld? || j.phase.Acking? then j else j.(phase := Acking, accidents := j.accidents + 1)
    case ReapJobs(now) => j.(slot := SlotReap(cfg.queue, j.slot, now))
    case ReplayJob => j.(slot := SlotReplay(j.slot))
  }

  function Run(cfg: Settings, start: Job, steps: seq<JobStep>): Job {
    if steps == [] then start else Apply(cfg, Run(cfg, start, steps[..|steps| - 1]), steps[|steps| - 1])
  }

  // ----- history, read off a run -----

  /** How often the run committed `finalize_run`. */
  function Finalisations(cfg: Settings, start: Job, steps: seq<JobStep>): nat {
    if steps == [] then 0
    else
      var before := steps[..|steps| - 1];
      Finalisations(cfg, start, before)
      + (if steps[|steps| - 1].FinalizeDrive? && Run(cfg, start, before).phase.Finishing? then 1 else 0)
  }

  // ----- what every step keeps -----

  ghost predicate QueueInv(j: Job) {
    && (j.row.None? ==> j.slot.Nowhere() && j.phase.Unheld? && j.hand == 0 && j.accidents == 0)
    && (!j.phase.Unheld? ==> !j.slot.Nowhere())
    && (j.row.Some? && Live(j.row.value) ==> !j.slot.Nowhere() || j.hand > 0 || j.accidents > 0)
    && (j.row.Some? && Live(j.row.value) && j.phase.Acking? ==> j.slot.pending > 0 || j.hand > 0 || j.accidents > 0)
  }

  ghost predicate RowInv(r: Row) {
    && PathClosed(r.steps.Keys)
    && (r.status.Completed? ==> GenerateReport in r.steps)
    && (r.status.NeedsReview? ==> HumanReview in r.steps)
    && (r.status.Failed? || r.status.Queued? ==> !HasTerminalStep(r))
    && (r.artifacts != [] ==> Settled(r))
  }

  ghost predicate DriveInv(j: Job) {
    match j.phase
    case Driving(attempts, next, final) =>
      j.row.Some? && var r := j.row.value;
      && r.status.Running? && !HasTerminalStep(r) && attempts == r.attempts && r.artifacts == []
      && EntryDone(r.steps.Keys, next) && EntryDone(final.Keys, next)
      && PathClosed(final.Keys) && GenerateReport !in final && HumanReview !in final
    case Finishing(final) =>
      j.row.Some? && var r := j.row.value;
      && r.status.Running? && r.artifacts == []
      && (GenerateReport in final || HumanReview in final) && PathClosed(final.Keys)
      && (GenerateReport in final <==> GenerateReport in r.steps)
      && (HumanReview in final <==> HumanReview in r.steps)
    case Requeueing => j.row.Some? && j.row.value.status.Queued?
    case _ => true
  }

  ghost predicate Inv(j: Job) {
    QueueInv(j) && DriveInv(j) && (j.row.Some? ==> RowInv(j.row.value))
  }

  lemma ReapKeepsCopies(cfg: Config, v: Slot, now: int)
    ensures SlotReap(cfg, v, now).AsManyAs(v) && SlotReap(cfg, v, now).pending >= v.pending
  {
    MovesConserve(cfg, v, v.processing);
  }

  lemma NodeKeepsInv(j: Job, output: Output, review: bool)
    requires Inv(j) && j.phase.Driving?
    ensures var (r, p) := DriveNode(j.row.value, j.phase, output, review);
            RowInv(r) && DriveInv(j.(row := Some(r), phase := p)) && r.status == Running
  {
    EdgesClimb(j.phase.next, review);
  }

  lemma StepKeepsInv(cfg: Settings, j: Job, step: JobStep)
    requires Inv(j)
    ensures Inv(Apply(cfg, j, step))
  {
    match step
    case RunNode(output, review) => if j.phase.Driving? { NodeKeepsInv(j, output, review); }
    case ReapJobs(now) => ReapKeepsCopies(cfg.queue, j.slot, now);
    case FinalizeDrive =>
      if j.phase.Finishing? {
        ArtifactsOncePerKind(j.phase.final);
        assert [] + ArtifactsOf(j.phase.final) == ArtifactsOf(j.phase.final);
      }
    case _ =>
  }

  lemma {:induction false} RunKeepsInv(cfg: Settings, start: Job, steps: seq<JobStep>)
    requires Absent(start)
    ensures Inv(Run(cfg, start, steps))
  {
    if steps != [] {
      RunKeepsInv(cfg, start, steps[..|steps| - 1]);
      StepKeepsInv(cfg, Run(cfg, start, steps[..|steps| - 1]), steps[|steps| - 1]);
    }
  }

  // ----- theorems over whole runs -----

  /** Open, in no list, and no API process is going to enqueue it. */
  predicate Lost(j: Job) { j.row.Some? && Live(j.row.value) && j.hand == 0 && j.slot.Nowhere() }

  /** The two steps that can lose a request: the only API process that owes its enqueue crashes while no copy exists,
      or a worker acks the only copy of a request that is still open, because an exception escaped or because the
      request was opened again behind the worker's back. */
  predicate Loses(j: Job, step: JobStep) {
    && j.row.Some? && Live(j.row.value)
    && (|| (step.ApiCrash? && j.hand == 1 && j.slot.Nowhere())
        || (step.AckJob? && j.phase.Acking? && j.hand == 0
            && j.slot.pending == 0 && j.slot.dead == 0 && j.slot.processing == 1))
  }

  lemma LosesExactlyWhen(cfg: Settings, j: Job, step: JobStep)
    requires Inv(j) && !Lost(j)
    ensures Lost(Apply(cfg, j, step)) <==> Loses(j, step)
    ensures j.accidents == 0 && Loses(j, step) ==> step.ApiCrash?
  {
    if step.ReapJobs? { ReapKeepsCopies(cfg.queue, j.slot, step.now); }
  }

  /** A lost request stays as it is: nothing claims, retries or replays it. */
  lemma LostStaysLost(cfg: Settings, j: Job, step: JobStep)
    requires Inv(j) && Lost(j)
    ensures Lost(Apply(cfg, j, step)) && Apply(cfg, j, step).row == j.row
  {
    if step.ReapJobs? { ReapKeepsCopies(cfg.queue, j.slot, step.now); }
  }

  predicate EverLoses(cfg: Settings, start: Job, steps: seq<JobStep>) {
    steps != [] && (
      var before := steps[..|steps| - 1];
      EverLoses(cfg, start, before) || Loses(Run(cfg, start, before), steps[|steps| - 1]))
  }

  /** No lost work, exactly: whatever crashes, reaps and escaping exceptions happen, a QUEUED or RUNNING request is in
      some list or about to be enqueued, if and only if none of the two losing steps ever happened; without an API
      crash or an escaping exception none can. */
  lemma {:induction false} NoLostWork(cfg: Settings, start: Job, steps: seq<JobStep>)
    requires Absent(start)
    ensures Lost(Run(cfg, start, steps)) <==> EverLoses(cfg, start, steps)
    ensures Run(cfg, start, steps).accidents == 0 ==> !Lost(Run(cfg, start, steps))
  {
    if steps != [] {
      var before, step := steps[..|steps| - 1], steps[|steps| - 1];
      NoLostWork(cfg, start, before);
      RunKeepsInv(cfg, start, before);
      if Lost(Run(cfg, start, before)) {
        LostStaysLost(cfg, Run(cfg, start, before), step);
      } else {
        LosesExactlyWhen(cfg, Run(cfg, start, before), step);
      }
    }
    RunKeepsInv(cfg, start, steps);
  }

  /** The API process crashes between a commit and its enqueue, or an exception escapes the worker's handling. */
  predicate IsAccident(step: JobStep) { step.ApiCrash? || step.RaiseOut? }

  lemma {:induction false} AccidentsAreCounted(cfg: Settings, start: Job, steps: seq<JobStep>)
    requires Absent(start) && forall k :: 0 <= k < |steps| ==> !IsAccident(steps[k])
    ensures Run(cfg, start, steps).accidents == 0
  {
    if steps != [] {
      AccidentsAreCounted(cfg, start, steps[..|steps| - 1]);
    }
  }

  /** As long as no API process crashes between a commit and its enqueue and no exception escapes, nothing is lost. */
  lemma NothingLostWithoutAccident(cfg: Settings, start: Job, steps: seq<JobStep>)
    requires Absent(start) && forall k :: 0 <= k < |steps| ==> !IsAccident(steps[k])
    ensures !Lost(Run(cfg, start, steps))
  {
    AccidentsAreCounted(cfg, start, steps);
    NoLostWork(cfg, start, steps);
  }

  /** The first losing step is real: an API crash between commit and enqueue leaves a QUEUED request nowhere. */
  lemma ApiCrashStrands(cfg: Settings, j: Job)
    requires Inv(j) && j.row.None?
    ensures var lost := Apply(cfg, Apply(cfg, j, Submit), ApiCrash);
            lost.row == Some(SUBMITTED) && Lost(lost)
  {
  }

  /** So is the second: a drive fails, an operator retries the request before the worker has acked, the API crashes
      before its enqueue, and the ack takes the last copy away. */
  lemma AckAfterRetryStrands(cfg: Settings, j: Job, text: string)
    requires Inv(j) && j.phase.Driving? && j.hand == 0
    requires j.slot.pending == 0 && j.slot.dead == 0 && j.slot.processing == 1
    ensures var failed := Apply(cfg, j, FailDrive(false, text));
            var retried := Apply(cfg, failed, RetryRequest);
            var crashed := Apply(cfg, retried, ApiCrash);
            && !Lost(j) && !Lost(failed) && !Lost(retried) && !Lost(crashed)
            && Loses(crashed, AckJob) && Lost(Apply(cfg, crashed, AckJob))
  {
  }

  /** Why database calls must not raise: an exception outside the inner try (in `_begin`, `_load_state` or
      `_select_pipeline`), or from the failure handler itself, still acks, which loses an open request exactly when
      the claimed copy was its last and no API process owes it another. */
  lemma RaiseOutsideTryLosesWork(cfg: Settings, j: Job)
    requires Inv(j) && !j.phase.Unheld? && !j.phase.Acking? && j.row.Some? && Live(j.row.value)
    ensures var acked := Apply(cfg, Apply(cfg, j, RaiseOut), AckJob);
            && acked.row == j.row
            && (Lost(acked)
                <==> j.hand == 0 && j.slot.processing == 1 && j.slot.pending == 0 && j.slot.dead == 0)
  {
  }

  lemma {:induction false} AllParked(cfg: Config, v: Slot, k: nat)
    requires k <= v.processing && cfg.maxRedeliveries < 1 && v.mark.delivered >= cfg.maxRedeliveries
    ensures SlotMoves(cfg, v, k).pending == v.pending
    decreases k
  {
    if k > 0 { AllParked(cfg, SlotMove(cfg, v), k - 1); }
  }

  /** A reap returns a copy if the job has a redelivery left, or after parking one copy a further copy starts anew. */
  predicate Returns(cfg: Config, v: Slot, now: int) {
    && SlotExpired(cfg, v, now) && v.processing > 0
    && (v.mark.delivered < cfg.maxRedeliveries || (v.processing > 1 && cfg.maxRedeliveries >= 1))
  }

  lemma ReapReturnsExactlyWhen(cfg: Config, v: Slot, now: int)
    requires v.pending == 0
    ensures SlotReap(cfg, v, now).pending > 0 <==> Returns(cfg, v, now)
  {
    if SlotExpired(cfg, v, now) && v.processing > 0 {
      var one := SlotMove(cfg, v);
      assert SlotMoves(cfg, v, v.processing) == SlotMoves(cfg, one, v.processing - 1);
      if v.mark.delivered < cfg.maxRedeliveries {
        MovesConserve(cfg, one, one.processing);
      } else if v.processing > 1 && cfg.maxRedeliveries >= 1 {
        assert SlotMoves(cfg, one, one.processing) == SlotMoves(cfg, SlotMove(cfg, one), one.processing - 1);
        MovesConserve(cfg, SlotMove(cfg, one), one.processing - 1);
      } else if v.processing > 1 {
        AllParked(cfg, one, one.processing);
      }
    }
  }

  /** A job that is held and has no pending copy gets one, for another worker to claim, by exactly these steps: an
      enqueue by the API, one by its own worker (which acks only afterwards), a reap of an expired claim that returns
      a copy, or a replay. */
  lemma HeldBecomesClaimableExactlyWhen(cfg: Settings, j: Job, step: JobStep)
    requires Inv(j) && !j.phase.Unheld? && j.slot.pending == 0
    ensures Apply(cfg, j, step).slot.pending > 0 <==>
            || (step.ApiEnqueue? && j.hand > 0)
            || (step.RequeueJob? && j.phase.Requeueing?)
            || (step.ReapJobs? && Returns(cfg.queue, j.slot, step.now))
            || (step.ReplayJob? && j.slot.dead > 0)
  {
    if step.ReapJobs? { ReapReturnsExactlyWhen(cfg.queue, j.slot, step.now); }
  }

  /** At most one finalisation per request over all crashes, redeliveries, requeues and operator retries, and
      the artifacts are exactly those of that one transaction. */
  lemma {:induction false} FinalisedAtMostOnce(cfg: Settings, start: Job, steps: seq<JobStep>)
    requires Absent(start)
    ensures Finalisations(cfg, start, steps) ==
            (if Run(cfg, start, steps).row.Some? && Run(cfg, start, steps).row.value.artifacts != [] then 1 else 0)
    ensures Run(cfg, start, steps).row.Some? ==> OnePerKind(Run(cfg, start, steps).row.value.artifacts)
  {
    RunKeepsInv(cfg, start, steps);
    if steps != [] {
      var before := steps[..|steps| - 1];
      FinalisedAtMostOnce(cfg, start, before);
      RunKeepsInv(cfg, start, before);
      var j := Run(cfg, start, before);
      if j.phase.Finishing? { ArtifactsOncePerKind(j.phase.final); }
    }
  }

  /** `_begin` settles a live request from a terminal checkpoint instead of driving it. */
  predicate SettlesFromCheckpoint(j: Job, step: JobStep) {
    step.BeginDrive? && j.phase.Claimed? && j.row.Some? && Live(j.row.value) && HasTerminalStep(j.row.value)
  }

  function CheckpointSettlements(cfg: Settings, start: Job, steps: seq<JobStep>): nat {
    if steps == [] then 0
    else
      var before := steps[..|steps| - 1];
      CheckpointSettlements(cfg, start, before)
      + (if SettlesFromCheckpoint(Run(cfg, start, before), steps[|steps| - 1]) then 1 else 0)
  }

  predicate IsSettled(j: Job) { j.row.Some? && Settled(j.row.value) }

  lemma StepSettles(cfg: Settings, j: Job, step: JobStep)
    requires Inv(j)
    ensures IsSettled(Apply(cfg, j, step)) <==>
            IsSettled(j) || (step.FinalizeDrive? && j.phase.Finishing?) || SettlesFromCheckpoint(j, step)
    ensures IsSettled(j) ==> !j.phase.Finishing? && !SettlesFromCheckpoint(j, step)
  {
  }

  /** A request ends up COMPLETED or NEEDS_REVIEW either by its one finalisation or by one settlement from a
      checkpoint, never by both; only the first kind has artifacts. */
  lemma {:induction false} SettledExactlyOneWay(cfg: Settings, start: Job, steps: seq<JobStep>)
    requires Absent(start)
    ensures Finalisations(cfg, start, steps) + CheckpointSettlements(cfg, start, steps)
            == (if IsSettled(Run(cfg, start, steps)) then 1 else 0)
  {
    if steps != [] {
      var before := steps[..|steps| - 1];
      SettledExactlyOneWay(cfg, start, before);
      RunKeepsInv(cfg, start, before);
      StepSettles(cfg, Run(cfg, start, before), steps[|steps| - 1]);
    }
  }

  /** COMPLETED does not imply artifacts: a worker that dies between its last checkpoint and finalize_run
      leaves a request whose next claim settles the status alone. */
  lemma CrashBeforeFinalizeDropsArtifacts(cfg: Settings, j: Job, now: int)
    requires Inv(j) && j.phase.Finishing? && j.slot.pending == 0 && j.slot.processing == 1
    requires SlotExpired(cfg.queue, j.slot, now) && j.slot.mark.delivered < cfg.queue.maxRedeliveries
    ensures var crashed := Apply(cfg, Apply(cfg, j, WorkerCrash), ReapJobs(now));
            var again := Apply(cfg, Apply(cfg, crashed, TakeClaim(now)), BeginDrive);
            again.row.Some? && Settled(again.row.value) && again.row.value.artifacts == []
  {
    assert SlotMoves(cfg.queue, j.slot, 1) == SlotMoves(cfg.queue, SlotMove(cfg.queue, j.slot), 0);
  }

  /** Exactly: a settled request has no artifacts if and only if it was settled from a checkpoint. */
  lemma NoArtifactsExactlyWhen(cfg: Settings, start: Job, steps: seq<JobStep>)
    requires Absent(start) && IsSettled(Run(cfg, start, steps))
    ensures Run(cfg, start, steps).row.value.artifacts == [] <==> CheckpointSettlements(cfg, start, steps) == 1
  {
    FinalisedAtMostOnce(cfg, start, steps);
    SettledExactlyOneWay(cfg, start, steps);
  }

  /** Checkpoints and status agree in every reachable state. */
  lemma CheckpointsAgreeWithStatus(cfg: Settings, start: Job, steps: seq<JobStep>)
    requires Absent(start)
    ensures var j := Run(cfg, start, steps);
            j.row.Some? ==>
              var r := j.row.value;
              && (r.status == Completed ==> GenerateReport in r.steps)
              && (r.status == NeedsReview ==> HumanReview in r.steps)
              && !(GenerateReport in r.steps && HumanReview in r.steps)
              && (forall m: Node, n: Node :: n in r.steps && !m.HumanReview? && Rank(m) < Rank(n) ==> m in r.steps)
  {
    RunKeepsInv(cfg, start, steps);
    var j := Run(cfg, start, steps);
    if j.row.Some? {
      forall m: Node, n: Node | n in j.row.value.steps && !m.HumanReview? && Rank(m) < Rank(n)
        ensures m in j.row.value.steps
      {
        ClosedIsPrefix(j.row.value.steps.Keys, m, n);
      }
    }
  }

  /** What a row may become later: saved outputs never change, COMPLETED and NEEDS_REVIEW are final, artifacts
      once written stay. */
  predicate Extends(a: Option<Row>, b: Option<Row>) {
    a.None? || (
      && b.Some?
      && (forall n: Node :: n in a.value.steps ==> n in b.value.steps && b.value.steps[n] == a.value.steps[n])
      && (Settled(a.value) ==> b.value == a.value)
      && (a.value.artifacts != [] ==> b.value.artifacts == a.value.artifacts))
  }

  lemma StepExtends(cfg: Settings, j: Job, step: JobStep)
    requires Inv(j)
    ensures Extends(j.row, Apply(cfg, j, step).row)
    ensures j.row.Some? && j.row.value.status == Failed && !step.RetryRequest? ==>
              Apply(cfg, j, step).row == j.row
  {
  }

  lemma ExtendsTransitive(a: Option<Row>, b: Option<Row>, c: Option<Row>)
    requires Extends(a, b) && Extends(b, c)
    ensures Extends(a, c)
  {
  }

  /** Over any continuation of any run. */
  lemma {:induction false} HistoryOnlyGrows(cfg: Settings, start: Job, steps: seq<JobStep>, more: seq<JobStep>)
    requires Absent(start)
    ensures Extends(Run(cfg, start, steps).row, Run(cfg, start, steps + more).row)
  {
    if more == [] {
      assert steps + more == steps;
    } else {
      var all, n := steps + more, |more| - 1;
      assert all[..|all| - 1] == steps + more[..n] && all[|all| - 1] == more[n];
      HistoryOnlyGrows(cfg, start, steps, more[..n]);
      RunKeepsInv(cfg, start, steps + more[..n]);
      StepExtends(cfg, Run(cfg, start, steps + more[..n]), more[n]);
      ExtendsTransitive(Run(cfg, start, steps).row, Run(cfg, start, steps + more[..n]).row, Run(cfg, start, all).row);
    }
  }

  /** FAILED is left only through the retry endpoint. */
  lemma {:induction false} FailedUntilRetried(cfg: Settings, start: Job, steps: seq<JobStep>, more: seq<JobStep>)
    requires Absent(start)
    requires Run(cfg, start, steps).row.Some? && Run(cfg, start, steps).row.value.status == Failed
    requires forall k :: 0 <= k < |more| ==> !more[k].RetryRequest?
    ensures Run(cfg, start, steps + more).row == Run(cfg, start, steps).row
  {
    if more == [] {
      assert steps + more == steps;
    } else {
      var all, n := steps + more, |more| - 1;
      assert all[..|all| - 1] == steps + more[..n] && all[|all| - 1] == more[n];
      FailedUntilRetried(cfg, start, steps, more[..n]);
      RunKeepsInv(cfg, start, steps + more[..n]);
      StepExtends(cfg, Run(cfg, start, steps + more[..n]), more[n]);
    }
  }
}
