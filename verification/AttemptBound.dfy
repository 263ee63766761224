/** How often one job can be claimed and driven, and that it comes to rest, while it has a single queue copy:
    failure handling, re-enqueue and ack form one step, and no operator retries or replays it. */
module AttemptBound {
  import opened RedisLists
  import opened QueueModel
  import opened PipelineGraph
  import opened RequestRow
  import opened JobLifecycle

  function ApplyAtomic(cfg: Settings, j: Job, step: JobStep): Job {
    var next := Apply(cfg, j, step);
    if step.FailDrive? && next.phase.Requeueing?
    then Apply(cfg, Apply(cfg, next, RequeueJob), AckJob)
    else next
  }

  function RunAtomic(cfg: Settings, start: Job, steps: seq<JobStep>): Job {
    if steps == [] then start else ApplyAtomic(cfg, RunAtomic(cfg, start, steps[..|steps| - 1]), steps[|steps| - 1])
  }

  /** max_attempts; a first attempt is always made. */
  function Limit(cfg: Settings): nat { Max(cfg.maxAttempts, 1) }

  /** max_redeliveries; a negative setting parks at the first reap, as zero does. */
  function Redeliveries(cfg: Settings): nat { Max(cfg.queue.maxRedeliveries, 0) }

  predicate IsLive(j: Job) { j.row.Some? && Live(j.row.value) }

  predicate OpenClaim(j: Job, step: JobStep) {
    step.TakeClaim? && j.phase.Unheld? && j.slot.pending > 0 && IsLive(j)
  }

  predicate Requeueing(cfg: Settings, j: Job, step: JobStep) {
    step.FailDrive? && Apply(cfg, j, step).phase.Requeueing?
  }

  /** Claims taken while the request was still open. */
  function Claims(cfg: Settings, start: Job, steps: seq<JobStep>): nat {
    if steps == [] then 0
    else
      var before := steps[..|steps| - 1];
      Claims(cfg, start, before) + One(OpenClaim(RunAtomic(cfg, start, before), steps[|steps| - 1]))
  }

  function Requeues(cfg: Settings, start: Job, steps: seq<JobStep>): nat {
    if steps == [] then 0
    else
      var before := steps[..|steps| - 1];
      Requeues(cfg, start, before) + One(Requeueing(cfg, RunAtomic(cfg, start, before), steps[|steps| - 1]))
  }

  /** Nobody retries or replays the job, and no exception escapes the worker's handling. */
  predicate IsUndisturbed(step: JobStep) { !step.RetryRequest? && !step.ReplayJob? && !step.RaiseOut? }

  /** The setting, all along the run: one copy, no operator, no escaping exception. */
  predicate Undisturbed(cfg: Settings, start: Job, steps: seq<JobStep>) {
    RunAtomic(cfg, start, steps).slot.AtMostOnce()
    && (steps == [] || (
          && IsUndisturbed(steps[|steps| - 1])
          && Undisturbed(cfg, start, steps[..|steps| - 1])))
  }

  /** Claims since the last requeue, counted by the queue's own delivery counter. */
  function Segment(cfg: Settings, v: Slot): int {
    if v.dead > 0 then Redeliveries(cfg) + 1 else if v.processing > 0 then v.mark.delivered + 1 else v.mark.delivered
  }

  /** The single-copy invariants that do not count. */
  ghost predicate Calm(cfg: Settings, j: Job) {
    && Inv(j)
    && j.slot.AtMostOnce() && j.hand + j.accidents <= 1 && (j.hand + j.accidents == 1 ==> j.slot.Nowhere())
    && !j.phase.Requeueing?
    && (IsLive(j) ==> !j.phase.Acking?)
    && (j.slot.dead == 0 ==> 0 <= j.slot.mark.delivered <= Redeliveries(cfg))
  }

  predicate Capped(cfg: Settings, j: Job, claims: nat) {
    && (j.row.Some? ==> j.row.value.attempts <= Limit(cfg) + Redeliveries(cfg))
    && claims <= Segments(Limit(cfg), Redeliveries(cfg) + 1)
  }

  ghost predicate Bounded(cfg: Settings, j: Job, claims: nat, requeues: nat) {
    var a := if j.row.Some? then j.row.value.attempts else 0;
    var perSegment := Redeliveries(cfg) + 1;
    && Calm(cfg, j)
    && Capped(cfg, j, claims)
    && (j.row.None? ==> claims == 0 && requeues == 0 && j.slot.mark.delivered == 0)
    && (IsLive(j) && j.slot.Nowhere() ==> a == 0 && claims == 0 && requeues == 0 && j.slot.mark.delivered == 0)
    && (IsLive(j) ==>
          && a + One(j.phase.Claimed?) <= Limit(cfg) - 1 + Segment(cfg, j.slot)
          && claims <= Segments(requeues, perSegment) + Segment(cfg, j.slot)
          && requeues + One(j.phase.Driving? || j.phase.Finishing?) <= a
          && requeues <= Limit(cfg) - 1)
  }

  lemma ReapOnce(cfg: Config, v: Slot, now: int)
    requires v.AtMostOnce()
    ensures SlotReap(cfg, v, now) == if SlotExpired(cfg, v, now) && v.processing == 1 then SlotMove(cfg, v) else v
  {
    if SlotExpired(cfg, v, now) && v.processing == 1 {
      assert SlotMoves(cfg, v, 1) == SlotMoves(cfg, SlotMove(cfg, v), 0);
    }
  }

  lemma AtomicKeepsInv(cfg: Settings, j: Job, step: JobStep)
    requires Inv(j)
    ensures Inv(ApplyAtomic(cfg, j, step))
  {
    StepKeepsInv(cfg, j, step);
    var next := Apply(cfg, j, step);
    StepKeepsInv(cfg, next, RequeueJob);
    StepKeepsInv(cfg, Apply(cfg, next, RequeueJob), AckJob);
  }

  lemma StepKeepsCalm(cfg: Settings, j: Job, step: JobStep)
    requires Calm(cfg, j) && IsUndisturbed(step)
    requires ApplyAtomic(cfg, j, step).slot.AtMostOnce()
    ensures Calm(cfg, ApplyAtomic(cfg, j, step))
  {
    AtomicKeepsInv(cfg, j, step);
    if step.ReapJobs? { ReapOnce(cfg.queue, j.slot, step.now); }
  }

  /** `n` segments of `k` claims; written as repeated addition to keep products out of the invariants. */
  function Segments(n: nat, k: nat): nat { if n == 0 then 0 else Segments(n - 1, k) + k }

  lemma {:induction false} SegmentsIsProduct(n: nat, k: nat)
    ensures Segments(n, k) == n * k
  {
    if n > 0 { SegmentsIsProduct(n - 1, k); }
  }

  lemma {:induction false} RoomForOneMore(limit: nat, requeues: nat, k: nat)
    requires requeues + 1 <= limit
    ensures Segments(requeues, k) + k <= Segments(limit, k)
  {
    if requeues + 1 < limit { RoomForOneMore(limit - 1, requeues, k); }
  }

  lemma ReapKeepsBounds(cfg: Settings, j: Job, step: JobStep, claims: nat, requeues: nat)
    requires Bounded(cfg, j, claims, requeues) && step.ReapJobs?
    requires ApplyAtomic(cfg, j, step).slot.AtMostOnce()
    ensures Bounded(cfg, ApplyAtomic(cfg, j, step), claims, requeues)
  {
    StepKeepsCalm(cfg, j, step);
    ReapOnce(cfg.queue, j.slot, step.now);
  }

  lemma FailKeepsBounds(cfg: Settings, j: Job, step: JobStep, claims: nat, requeues: nat)
    requires Bounded(cfg, j, claims, requeues) && step.FailDrive?
    requires ApplyAtomic(cfg, j, step).slot.AtMostOnce()
    ensures Bounded(cfg, ApplyAtomic(cfg, j, step), claims, requeues + One(Requeueing(cfg, j, step)))
  {
    StepKeepsCalm(cfg, j, step);
    if IsLive(j) { RoomForOneMore(Limit(cfg), requeues, Redeliveries(cfg) + 1); }
  }

  lemma ClaimKeepsBounds(cfg: Settings, j: Job, step: JobStep, claims: nat, requeues: nat)
    requires Bounded(cfg, j, claims, requeues) && step.TakeClaim?
    requires ApplyAtomic(cfg, j, step).slot.AtMostOnce()
    ensures Bounded(cfg, ApplyAtomic(cfg, j, step), claims + One(OpenClaim(j, step)), requeues)
  {
    StepKeepsCalm(cfg, j, step);
    if IsLive(j) { RoomForOneMore(Limit(cfg), requeues, Redeliveries(cfg) + 1); }
  }

  lemma StepKeepsBounds(cfg: Settings, j: Job, step: JobStep, claims: nat, requeues: nat)
    requires Bounded(cfg, j, claims, requeues) && IsUndisturbed(step)
    requires ApplyAtomic(cfg, j, step).slot.AtMostOnce()
    ensures Bounded(cfg, ApplyAtomic(cfg, j, step),
                    claims + One(OpenClaim(j, step)), requeues + One(Requeueing(cfg, j, step)))
  {
    if step.ReapJobs? {
      ReapKeepsBounds(cfg, j, step, claims, requeues);
    } else if step.FailDrive? {
      FailKeepsBounds(cfg, j, step, claims, requeues);
    } else if step.TakeClaim? {
      ClaimKeepsBounds(cfg, j, step, claims, requeues);
    } else {
      StepKeepsCalm(cfg, j, step);
    }
  }

  lemma NothingYet(cfg: Settings, j: Job)
    requires Absent(j)
    ensures Bounded(cfg, j, 0, 0)
  {
  }

  lemma StepReaches(cfg: Settings, j: Job, step: JobStep, claims: nat, requeues: nat,
                    j1: Job, claims1: nat, requeues1: nat)
    requires Bounded(cfg, j, claims, requeues) && IsUndisturbed(step)
    requires j1 == ApplyAtomic(cfg, j, step) && j1.slot.AtMostOnce()
    requires claims1 == claims + One(OpenClaim(j, step)) && requeues1 == requeues + One(Requeueing(cfg, j, step))
    ensures Bounded(cfg, j1, claims1, requeues1)
  {
    StepKeepsBounds(cfg, j, step, claims, requeues);
  }

  lemma LastStepBounded(cfg: Settings, start: Job, steps: seq<JobStep>)
    requires steps != [] && Undisturbed(cfg, start, steps)
    requires var before := steps[..|steps| - 1];
             Bounded(cfg, RunAtomic(cfg, start, before), Claims(cfg, start, before), Requeues(cfg, start, before))
    ensures Bounded(cfg, RunAtomic(cfg, start, steps), Claims(cfg, start, steps), Requeues(cfg, start, steps))
  {
    var before, step := steps[..|steps| - 1], steps[|steps| - 1];
    var j, claims, requeues := RunAtomic(cfg, start, before), Claims(cfg, start, before), Requeues(cfg, start, before);
    StepReaches(cfg, j, step, claims, requeues,
                RunAtomic(cfg, start, steps), Claims(cfg, start, steps), Requeues(cfg, start, steps));
  }

  lemma {:induction false} RunIsBounded(cfg: Settings, start: Job, steps: seq<JobStep>)
    requires Absent(start)
    requires Undisturbed(cfg, start, steps)
    ensures Bounded(cfg, RunAtomic(cfg, start, steps), Claims(cfg, start, steps), Requeues(cfg, start, steps))
  {
    if steps == [] {
      NothingYet(cfg, start);
    } else {
      RunIsBounded(cfg, start, steps[..|steps| - 1]);
      LastStepBounded(cfg, start, steps);
    }
  }

  lemma RunIsCapped(cfg: Settings, start: Job, steps: seq<JobStep>)
    requires Absent(start) && Undisturbed(cfg, start, steps)
    ensures Capped(cfg, RunAtomic(cfg, start, steps), Claims(cfg, start, steps))
  {
    RunIsBounded(cfg, start, steps);
  }

  /** `attempts` never exceeds max_attempts + max_redeliveries, and a request is claimed at most
      max_attempts * (max_redeliveries + 1) times before it settles, although ack resets the delivery counter. */
  lemma AttemptsAndClaimsBounded(cfg: Settings, start: Job, steps: seq<JobStep>)
    requires Absent(start)
    requires Undisturbed(cfg, start, steps)
    ensures var j := RunAtomic(cfg, start, steps);
            j.row.Some? ==> j.row.value.attempts <= Limit(cfg) + Redeliveries(cfg)
    ensures Claims(cfg, start, steps) <= Limit(cfg) * (Redeliveries(cfg) + 1)
  {
    RunIsCapped(cfg, start, steps);
    SegmentsIsProduct(Limit(cfg), Redeliveries(cfg) + 1);
  }

  // ----- the setting as runs of the full machine -----

  /** The steps of the full machine: a failure that requeues is followed at once by its enqueue and its ack. */
  function Expanded(cfg: Settings, start: Job, steps: seq<JobStep>): seq<JobStep> {
    if steps == [] then []
    else
      var before, step := steps[..|steps| - 1], steps[|steps| - 1];
      Expanded(cfg, start, before)
      + (if Requeueing(cfg, RunAtomic(cfg, start, before), step) then [step, RequeueJob, AckJob] else [step])
  }

  lemma RunOne(cfg: Settings, start: Job, steps: seq<JobStep>, step: JobStep)
    ensures Run(cfg, start, steps + [step]) == Apply(cfg, Run(cfg, start, steps), step)
  {
    assert (steps + [step])[..|steps|] == steps;
  }

  lemma {:induction false} AtomicRunsAreRuns(cfg: Settings, start: Job, steps: seq<JobStep>)
    ensures Run(cfg, start, Expanded(cfg, start, steps)) == RunAtomic(cfg, start, steps)
  {
    if steps != [] {
      var before, step := steps[..|steps| - 1], steps[|steps| - 1];
      AtomicRunsAreRuns(cfg, start, before);
      var front := Expanded(cfg, start, before);
      RunOne(cfg, start, front, step);
      if Requeueing(cfg, RunAtomic(cfg, start, before), step) {
        RunOne(cfg, start, front + [step], RequeueJob);
        RunOne(cfg, start, front + [step] + [RequeueJob], AckJob);
        assert front + [step, RequeueJob, AckJob] == front + [step] + [RequeueJob] + [AckJob];
      }
    }
  }
}
