/** The attempt bound, for any request of the whole system. */
module SystemBound {
  import opened RedisLists
  import opened QueueModel
  import opened AttemptBound
  import L = JobLifecycle
  import S = JobSystem

  function WithoutStutter(steps: seq<L.JobStep>): seq<L.JobStep> {
    if steps == [] then []
    else WithoutStutter(steps[..|steps| - 1]) + (if steps[|steps| - 1].Stutter? then [] else [steps[|steps| - 1]])
  }

  lemma {:induction false} StutterChangesNothing(cfg: L.Settings, start: L.Job, steps: seq<L.JobStep>)
    ensures L.Run(cfg, start, WithoutStutter(steps)) == L.Run(cfg, start, steps)
  {
    if steps != [] {
      var before, step := steps[..|steps| - 1], steps[|steps| - 1];
      StutterChangesNothing(cfg, start, before);
      if step.Stutter? {
        assert WithoutStutter(steps) == WithoutStutter(before);
      } else {
        RunOne(cfg, start, WithoutStutter(before), step);
      }
    }
  }

  /** As one request sees the run: one queue copy, no operator, and every requeue followed by its enqueue and its
      ack before a reap or anything else that concerns this request.  What happens to other requests, and when, is
      not restricted. */
  ghost predicate Orderly(cfg: L.Settings, actions: seq<S.Action>, id: Id, steps: seq<L.JobStep>) {
    var start := S.View(S.Start(), id);
    && WithoutStutter(S.LocalSteps(cfg, actions, id)) == Expanded(cfg, start, steps)
    && Undisturbed(cfg, start, steps)
  }

  /** Whatever happens to other requests at the same time, an undisturbed request is driven at most
      max_attempts + max_redeliveries times. */
  lemma SystemAttemptsBounded(cfg: L.Settings, actions: seq<S.Action>, id: Id, steps: seq<L.JobStep>)
    requires Orderly(cfg, actions, id, steps) && id in S.Run(cfg, actions).rows
    ensures S.Run(cfg, actions).rows[id].attempts <= Max(cfg.maxAttempts, 1) + Max(cfg.queue.maxRedeliveries, 0)
  {
    var start := S.View(S.Start(), id);
    S.RunRefines(cfg, actions, id);
    S.StartIsAbsent(id);
    StutterChangesNothing(cfg, start, S.LocalSteps(cfg, actions, id));
    AtomicRunsAreRuns(cfg, start, steps);
    AttemptsAndClaimsBounded(cfg, start, steps);
  }
}
