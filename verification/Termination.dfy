/** In the single-copy setting every job comes to rest: a terminal status or the dead-letter list. */
module Termination {
  import opened RedisLists
  import opened QueueModel
  import opened PipelineGraph
  import opened RequestRow
  import opened JobLifecycle
  import opened AttemptBound

  /** Enqueued, not settled, not parked. */
  ghost predicate Open(cfg: Settings, j: Job) {
    Calm(cfg, j) && IsLive(j) && j.slot.pending + j.slot.processing == 1 && j.slot.dead == 0
  }

  predicate AtRest(j: Job) { j.row.Some? && (!Live(j.row.value) || j.slot.dead > 0) }

  /** First component: attempts left, with a drive in progress between two of its values. */
  function AttemptsLeft(cfg: Settings, j: Job): nat {
    if j.row.None? || j.row.value.attempts >= Limit(cfg) then 0
    else 2 * (Limit(cfg) - j.row.value.attempts) + One(j.phase.Driving? || j.phase.Finishing?)
  }

  /** Second component: redeliveries left; an ack resets it, but only together with a used-up attempt. */
  function RedeliveriesLeft(cfg: Settings, j: Job): nat { Max(Redeliveries(cfg) + 1 - j.slot.mark.delivered, 0) }

  /** Third component: how far the current holder is from being done. */
  function Distance(j: Job): nat {
    (if j.slot.pending > 0 then 14 else 0)
    + match j.phase
      case Unheld => 3
      case Claimed => 13
      case Driving(_, next, _) => 12 - Rank(next)
      case Finishing(_) => 4
      case _ => 0
  }

  predicate Lower(cfg: Settings, a: Job, b: Job) {
    || AttemptsLeft(cfg, a) < AttemptsLeft(cfg, b)
    || (AttemptsLeft(cfg, a) == AttemptsLeft(cfg, b)
        && (|| RedeliveriesLeft(cfg, a) < RedeliveriesLeft(cfg, b)
            || (RedeliveriesLeft(cfg, a) == RedeliveriesLeft(cfg, b) && Distance(a) < Distance(b))))
  }

  /** Every step that changes an open job settles it, parks it, or lowers the lexicographic measure. */
  lemma ProgressOrRest(cfg: Settings, j: Job, step: JobStep)
    requires Open(cfg, j) && !step.RaiseOut?
    requires ApplyAtomic(cfg, j, step) != j && ApplyAtomic(cfg, j, step).slot.AtMostOnce()
    ensures var j1 := ApplyAtomic(cfg, j, step);
            AtRest(j1) || (Open(cfg, j1) && Lower(cfg, j1, j))
  {
    assert !step.RetryRequest? && !step.ReplayJob?;
    StepKeepsCalm(cfg, j, step);
    if step.ReapJobs? { ReapOnce(cfg.queue, j.slot, step.now); }
    if step.RunNode? && j.phase.Driving? { EdgesClimb(j.phase.next, step.review); }
  }

  /** A driving worker can always go on with its next node, whatever the node puts out and however it judges. */
  lemma NodeProgress(cfg: Settings, j: Job, output: Output, review: bool)
    requires Open(cfg, j) && j.phase.Driving?
    ensures var j1 := ApplyAtomic(cfg, j, RunNode(output, review));
            j1 != j && j1.slot == j.slot && Open(cfg, j1) && Lower(cfg, j1, j)
  {
    StepKeepsCalm(cfg, j, RunNode(output, review));
    EdgesClimb(j.phase.next, review);
  }

  /** The step an unheld, claimed or finished job can take. */
  lemma QuietProgress(cfg: Settings, j: Job) returns (step: JobStep)
    requires Open(cfg, j) && !j.phase.Driving?
    ensures step.TakeClaim? || step.ReapJobs? || step.BeginDrive? || step.FinalizeDrive?
    ensures ApplyAtomic(cfg, j, step) != j && ApplyAtomic(cfg, j, step).slot.AtMostOnce()
  {
    match j.phase
    case Unheld =>
      if j.slot.pending == 1 {
        step := TakeClaim(0);
      } else {
        var now := if j.slot.mark.beat.Some? then j.slot.mark.beat.value + cfg.queue.visibility else 0;
        ReapOnce(cfg.queue, j.slot, now);
        step := ReapJobs(now);
      }
    case Claimed => step := BeginDrive;
    case Finishing(_) => step := FinalizeDrive;
  }

  /** An open job is never stuck: its worker can go on, some worker can claim it, or a late enough reap moves it; no
      crash and no failure is needed, one copy remains, and the step takes the job nearer to its rest. */
  lemma NeverStuck(cfg: Settings, j: Job) returns (step: JobStep)
    requires Open(cfg, j)
    ensures step.TakeClaim? || step.ReapJobs? || step.BeginDrive? || step.RunNode? || step.FinalizeDrive?
    ensures var j1 := ApplyAtomic(cfg, j, step);
            j1.slot.AtMostOnce() && (AtRest(j1) || (Open(cfg, j1) && Lower(cfg, j1, j)))
  {
    if j.phase.Driving? {
      step := RunNode(Output(""), false);
      NodeProgress(cfg, j, Output(""), false);
    } else {
      step := QuietProgress(cfg, j);
      ProgressOrRest(cfg, j, step);
    }
  }

  /** The measure as one number. */
  function Work(cfg: Settings, j: Job): nat {
    (Segments(AttemptsLeft(cfg, j), Redeliveries(cfg) + 2) + RedeliveriesLeft(cfg, j)) * 28 + Distance(j)
  }

  lemma {:induction false} SegmentsGrow(m: nat, n: nat, k: nat)
    requires m < n
    ensures Segments(m, k) + k <= Segments(n, k)
  {
    if m + 1 < n { SegmentsGrow(m, n - 1, k); }
  }

  lemma LowerIsLessWork(cfg: Settings, a: Job, b: Job)
    requires Lower(cfg, a, b) && Open(cfg, a)
    ensures Work(cfg, a) < Work(cfg, b)
  {
    if AttemptsLeft(cfg, a) < AttemptsLeft(cfg, b) {
      SegmentsGrow(AttemptsLeft(cfg, a), AttemptsLeft(cfg, b), Redeliveries(cfg) + 2);
    }
  }

  /** Every step changes the job, keeps one copy, and starts from a job not yet at rest; no exception escapes. */
  predicate Effective(cfg: Settings, j: Job, steps: seq<JobStep>)
    decreases |steps|
  {
    steps == [] || (
      && !AtRest(j) && !steps[0].RaiseOut?
      && ApplyAtomic(cfg, j, steps[0]) != j
      && ApplyAtomic(cfg, j, steps[0]).slot.AtMostOnce()
      && Effective(cfg, ApplyAtomic(cfg, j, steps[0]), steps[1..]))
  }

  /** Termination: however the environment schedules crashes, reaps and failures, an open job is at rest after
      at most `Work` of its own steps. */
  lemma {:induction false} RestsWithinWork(cfg: Settings, j: Job, steps: seq<JobStep>)
    requires Open(cfg, j) && Effective(cfg, j, steps)
    ensures |steps| <= Work(cfg, j)
    decreases |steps|
  {
    if steps != [] {
      var j1 := ApplyAtomic(cfg, j, steps[0]);
      ProgressOrRest(cfg, j, steps[0]);
      if AtRest(j1) {
        assert steps[1..] == [];
        assert Distance(j) > 0;
      } else {
        LowerIsLessWork(cfg, j1, j);
        RestsWithinWork(cfg, j1, steps[1..]);
      }
    }
  }
}
