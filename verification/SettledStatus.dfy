/** When the classifier's verdict is the same on every drive, so is the status a request settles with, whichever
    drive, redelivery or checkpoint settles it. */
module SettledStatus {
  import opened RedisLists
  import opened QueueModel
  import opened PipelineGraph
  import opened RequestRow
  import L = JobLifecycle
  import S = JobSystem

  predicate SameVerdict(steps: seq<L.JobStep>, review: bool) {
    forall k :: 0 <= k < |steps| && steps[k].RunNode? ==> steps[k].review == review
  }

  predicate NodesFit(nodes: set<Node>, review: bool) {
    (HumanReview in nodes ==> review) && (Extract in nodes ==> !review)
  }

  predicate NextFits(n: Node, review: bool) {
    (n.HumanReview? ==> review) && (!n.HumanReview? && !n.Classify? ==> !review)
  }

  predicate Fits(j: L.Job, review: bool) {
    && (j.row.Some? ==> NodesFit(j.row.value.steps.Keys, review))
    && (match j.phase
        case Driving(_, next, final) => NextFits(next, review) && NodesFit(final.Keys, review)
        case Finishing(final) => NodesFit(final.Keys, review)
        case _ => true)
  }

  lemma StepFits(cfg: L.Settings, j: L.Job, step: L.JobStep, review: bool)
    requires L.Inv(j) && Fits(j, review) && (step.RunNode? ==> step.review == review)
    ensures Fits(L.Apply(cfg, j, step), review)
  {
  }

  lemma {:induction false} RunFits(cfg: L.Settings, start: L.Job, steps: seq<L.JobStep>, review: bool)
    requires L.Absent(start) && SameVerdict(steps, review)
    ensures Fits(L.Run(cfg, start, steps), review)
  {
    if steps != [] {
      var before := steps[..|steps| - 1];
      RunFits(cfg, start, before, review);
      L.RunKeepsInv(cfg, start, before);
      StepFits(cfg, L.Run(cfg, start, before), steps[|steps| - 1], review);
    }
  }

  /** A settled request has the one status its verdict leads to. */
  lemma SettlesByVerdict(cfg: L.Settings, start: L.Job, steps: seq<L.JobStep>, review: bool)
    requires L.Absent(start) && SameVerdict(steps, review) && L.IsSettled(L.Run(cfg, start, steps))
    ensures L.Run(cfg, start, steps).row.value.status == if review then NeedsReview else Completed
  {
    RunFits(cfg, start, steps, review);
    L.RunKeepsInv(cfg, start, steps);
  }

  /** The same in the whole system, where only this request's verdicts matter. */
  lemma SystemSettlesByVerdict(cfg: L.Settings, actions: seq<S.Action>, id: Id, review: bool)
    requires SameVerdict(S.LocalSteps(cfg, actions, id), review)
    requires id in S.Run(cfg, actions).rows && Settled(S.Run(cfg, actions).rows[id])
    ensures S.Run(cfg, actions).rows[id].status == if review then NeedsReview else Completed
  {
    S.RunRefines(cfg, actions, id);
    S.StartIsAbsent(id);
    SettlesByVerdict(cfg, S.View(S.Start(), id), S.LocalSteps(cfg, actions, id), review);
  }
}
