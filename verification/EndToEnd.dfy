/** The protocol and the pipeline together: workers that claim, crash, requeue and are reaped as in `JobSystem` run
    the nodes of `Nodes` against the adapters, so that what the database says can be compared with what happened. */
module EndToEnd {
  import opened RedisLists
  import opened QueueModel
  import opened PipelineGraph
  import opened RequestRow
  import A = Adapters
  import N = Nodes
  import E = EffectPlan
  import H = EffectHistory
  import L = JobLifecycle
  import S = JobSystem
  import V = SettledStatus

  /** `render`: the JSON stored for a node, from the state after it. */
  datatype Program = Program(cfg: L.Settings, setup: H.Setup, render: (Node, N.State) -> Output)

  /** Everything that happened, as the database and queue saw it and as the adapters saw it; `drive` numbers the
      latest drive of each request. */
  datatype Joint = Joint(actions: seq<S.Action>, events: seq<H.Event>, drive: map<Id, nat>, unused: nat)

  datatype Step =
    | Protocol(a: S.Action)                          // anything but beginning a drive and running a node
    | Begin(id: Id)
    | RunNode(id: Id)                                // the node runs and its result is checkpointed
    | LoseResult(id: Id)                             // its adapter call happens, its result is lost
    | Alert(window: string, notice: A.Notice)

  function Database(pr: Program, j: Joint): S.System { S.Run(pr.cfg, j.actions) }

  function Outside(pr: Program, j: Joint): H.System { H.Run(pr.setup, j.events) }

  predicate IsProtocol(a: S.Action) { !(a.On? && (a.step.BeginDrive? || a.step.RunNode?)) }

  /** A worker is driving `id`, and its pipeline run is `drives[drive[id]]`. */
  predicate Drives(pr: Program, j: Joint, id: Id) {
    && id in Database(pr, j).held && Database(pr, j).held[id].Driving?
    && id in j.drive && j.drive[id] in Outside(pr, j).drives
  }

  function Result(pr: Program, j: Joint, id: Id): N.State
    requires Drives(pr, j, id)
  {
    N.Advance(pr.setup.ports, Outside(pr, j).drives[j.drive[id]], Outside(pr, j).world).0.state
  }

  /** The action that checkpoints the node just run. */
  function Checkpoint(pr: Program, j: Joint, id: Id): S.Action
    requires Drives(pr, j, id)
  {
    var state := Result(pr, j, id);
    S.On(id, L.RunNode(pr.render(Database(pr, j).held[id].next, state), N.ToReview(pr.setup.ports, state)))
  }

  function Apply(pr: Program, j: Joint, step: Step): Joint {
    match step
    case Protocol(a) => if IsProtocol(a) then j.(actions := j.actions + [a]) else j
    case Begin(id) =>
      if id in Database(pr, j).held && Database(pr, j).held[id].Claimed?
      then Joint(j.actions + [S.On(id, L.BeginDrive)], j.events + [H.Begin(j.unused, id.text)],
                 j.drive[id := j.unused], j.unused + 1)
      else j
    case RunNode(id) =>
      if Drives(pr, j, id)
      then j.(actions := j.actions + [Checkpoint(pr, j, id)], events := j.events + [H.Finish(j.drive[id])])
      else j
    case LoseResult(id) =>
      if Drives(pr, j, id) then j.(events := j.events + [H.CallOnly(j.drive[id])]) else j
    case Alert(window, notice) => j.(events := j.events + [H.StuckAlert(window, notice)])
  }

  function Run(pr: Program, steps: seq<Step>): Joint {
    if steps == [] then Joint([], [], map[], 0)
    else Apply(pr, Run(pr, steps[..|steps| - 1]), steps[|steps| - 1])
  }

  ghost predicate Sourced(pr: Program) { forall x :: H.Sourced(pr.setup, x) }

  function Furthest(pr: Program, j: Joint, id: Id): nat { H.FurthestNode(pr.setup, j.events, id.text) }

  predicate Review(pr: Program, id: Id) { E.Reviewed(pr.setup.ports, pr.setup.source(id.text)) }

  // ----- how the two sides hang together -----

  /** The node the worker is to run next is the one its pipeline run is at. */
  predicate Linked(s: S.System, o: H.System, drive: map<Id, nat>, id: Id) {
    id in s.held && s.held[id].Driving? ==>
      && id in drive && drive[id] in o.drives
      && o.drives[drive[id]].state.request.id == id.text
      && o.drives[drive[id]].next == Some(s.held[id].next)
      && o.drives[drive[id]].done == Rank(s.held[id].next)
  }

  ghost predicate AllLinked(pr: Program, j: Joint) {
    forall id :: Linked(Database(pr, j), Outside(pr, j), j.drive, id)
  }

  ghost predicate NumbersUsed(pr: Program, j: Joint) {
    forall n :: n in Outside(pr, j).drives ==> n < j.unused
  }

  /** A checkpointed node was carried out. */
  ghost predicate StepsCarriedOut(pr: Program, j: Joint, id: Id) {
    id in Database(pr, j).rows ==>
      forall n: Node :: n in Database(pr, j).rows[id].steps ==> Rank(n) < Furthest(pr, j, id)
  }

  ghost predicate VerdictsAgree(pr: Program, j: Joint, id: Id) {
    V.SameVerdict(S.LocalSteps(pr.cfg, j.actions, id), Review(pr, id))
  }

  // ----- one action of the protocol -----

  /** No drive of `id` begins or moves on, and no checkpoint of it changes. */
  predicate DrivesKept(s: S.System, t: S.System, id: Id) {
    && (id in t.held && t.held[id].Driving? ==> id in s.held && s.held[id] == t.held[id])
    && (id in s.rows ==> id in t.rows && t.rows[id].steps == s.rows[id].steps)
    && (id !in s.rows && id in t.rows ==> t.rows[id].steps == map[])
  }

  lemma WorkerKeepsDrives(cfg: L.Settings, s: S.System, x: Id, step: L.JobStep, id: Id)
    requires x in s.held && S.IsWorkerStep(step) && !step.BeginDrive? && !step.RunNode?
    ensures DrivesKept(s, S.WorkerStep(cfg, s, x, step), id)
  {
  }

  lemma ApiKeepsDrives(cfg: L.Settings, s: S.System, x: Id, step: L.JobStep, id: Id)
    requires !S.IsWorkerStep(step)
    ensures DrivesKept(s, S.ApplyOn(cfg, s, x, step), id)
  {
  }

  lemma ProtocolKeepsDrives(cfg: L.Settings, s: S.System, a: S.Action, id: Id)
    requires IsProtocol(a)
    ensures DrivesKept(s, S.Apply(cfg, s, a), id)
  {
    if a.On? {
      if !S.IsWorkerStep(a.step) {
        ApiKeepsDrives(cfg, s, a.id, a.step, id);
      } else if a.id in s.held {
        WorkerKeepsDrives(cfg, s, a.id, a.step, id);
        assert S.Apply(cfg, s, a) == S.WorkerStep(cfg, s, a.id, a.step);
      } else {
        assert S.Apply(cfg, s, a) == s;
      }
    }
  }

  lemma BeginKeepsOthers(cfg: L.Settings, s: S.System, x: Id, id: Id)
    ensures var t := S.Apply(cfg, s, S.On(x, L.BeginDrive));
            && (id in t.rows <==> id in s.rows) && (id in s.rows ==> t.rows[id].steps == s.rows[id].steps)
            && (id in t.held <==> id in s.held)
            && (id != x || id !in s.held || !s.held[id].Claimed? ==> id in s.held ==> t.held[id] == s.held[id])
            && (id == x && id in s.held && s.held[id].Claimed? && t.held[id].Driving? ==> t.held[id].next == ENTRY)
  {
  }

  lemma NodeMovesOn(cfg: L.Settings, s: S.System, x: Id, output: Output, review: bool, id: Id)
    requires x in s.held && s.held[x].Driving? && x in s.rows
    ensures var t := S.Apply(cfg, s, S.On(x, L.RunNode(output, review)));
            && (id in t.rows <==> id in s.rows)
            && (id in s.rows && id != x ==> t.rows[id] == s.rows[id])
            && (id == x ==> forall n: Node :: n in t.rows[x].steps ==> n in s.rows[x].steps || n == s.held[x].next)
            && (id != x ==> (id in t.held <==> id in s.held) && (id in s.held ==> t.held[id] == s.held[id]))
            && (id == x && id in t.held && t.held[id].Driving? ==>
                  Successor(s.held[x].next, review) == Some(t.held[id].next))
  {
  }

  lemma Longer(pr: Program, actions: seq<S.Action>, a: S.Action)
    ensures S.Run(pr.cfg, actions + [a]) == S.Apply(pr.cfg, S.Run(pr.cfg, actions), a)
  {
    assert (actions + [a])[..|actions|] == actions;
  }

  lemma LongerOutside(pr: Program, events: seq<H.Event>, e: H.Event)
    ensures H.Run(pr.setup, events + [e]) == H.Exec(pr.setup, H.Run(pr.setup, events), e)
  {
    assert (events + [e])[..|events|] == events;
  }

  lemma FurthestGrows(pr: Program, events: seq<H.Event>, e: H.Event, id: string)
    ensures var f, s := H.FurthestNode(pr.setup, events, id), H.Run(pr.setup, events);
            && H.FurthestNode(pr.setup, events + [e], id) >= f
            && ((e.Finish? || e.CallOnly?) && e.d in s.drives && s.drives[e.d].state.request.id == id
                && s.drives[e.d].next.Some?
                ==> H.FurthestNode(pr.setup, events + [e], id) >= s.drives[e.d].done + 1)
  {
    assert (events + [e])[..|events|] == events;
  }

  lemma VerdictAppended(pr: Program, j: Joint, a: S.Action, id: Id)
    requires VerdictsAgree(pr, j, id)
    requires a.On? && a.id == id && a.step.RunNode? ==> a.step.review == Review(pr, id)
    ensures V.SameVerdict(S.LocalSteps(pr.cfg, j.actions + [a], id), Review(pr, id))
  {
    assert (j.actions + [a])[..|j.actions|] == j.actions;
    var early := S.LocalSteps(pr.cfg, j.actions, id);
    var last := S.LocalStep(S.Run(pr.cfg, j.actions), a, id);
    assert S.LocalSteps(pr.cfg, j.actions + [a], id) == early + [last];
  }

  // ----- every step -----

  ghost predicate Inv(pr: Program, j: Joint) {
    AllLinked(pr, j) && NumbersUsed(pr, j)
  }

  ghost predicate Told(pr: Program, j: Joint, id: Id) {
    StepsCarriedOut(pr, j, id) && VerdictsAgree(pr, j, id)
  }

  lemma StaysLinked(s: S.System, t: S.System, o: H.System, drive: map<Id, nat>, id: Id)
    requires Linked(s, o, drive, id) && DrivesKept(s, t, id)
    ensures Linked(t, o, drive, id)
  {
  }

  lemma ProtocolLinks(pr: Program, j: Joint, a: S.Action)
    requires Inv(pr, j) && IsProtocol(a)
    ensures Inv(pr, j.(actions := j.actions + [a]))
  {
    var j1 := j.(actions := j.actions + [a]);
    var s, t, o := Database(pr, j), Database(pr, j1), Outside(pr, j);
    Longer(pr, j.actions, a);
    forall x ensures Linked(t, o, j.drive, x) {
      ProtocolKeepsDrives(pr.cfg, s, a, x);
      StaysLinked(s, t, o, j.drive, x);
    }
  }

  lemma ProtocolTells(pr: Program, j: Joint, a: S.Action, id: Id)
    requires Told(pr, j, id) && IsProtocol(a)
    ensures Told(pr, j.(actions := j.actions + [a]), id)
  {
    var j1 := j.(actions := j.actions + [a]);
    Longer(pr, j.actions, a);
    ProtocolKeepsDrives(pr.cfg, Database(pr, j), a, id);
    assert DrivesKept(Database(pr, j), Database(pr, j1), id);
    VerdictAppended(pr, j, a, id);
  }

  lemma BeginLinks(pr: Program, j: Joint, x: Id, id: Id)
    requires Sourced(pr) && Inv(pr, j)
    requires x in Database(pr, j).held && Database(pr, j).held[x].Claimed?
    ensures var j1 := Apply(pr, j, Begin(x)); Linked(Database(pr, j1), Outside(pr, j1), j1.drive, id)
  {
    Longer(pr, j.actions, S.On(x, L.BeginDrive));
    LongerOutside(pr, j.events, H.Begin(j.unused, x.text));
    BeginKeepsOthers(pr.cfg, Database(pr, j), x, id);
    assert Linked(Database(pr, j), Outside(pr, j), j.drive, id);
    assert H.Sourced(pr.setup, x.text);
  }

  lemma BeginUsesNumber(pr: Program, j: Joint, x: Id)
    requires NumbersUsed(pr, j) && x in Database(pr, j).held && Database(pr, j).held[x].Claimed?
    ensures NumbersUsed(pr, Apply(pr, j, Begin(x)))
  {
    var e := H.Begin(j.unused, x.text);
    LongerOutside(pr, j.events, e);
    var o, o1 := Outside(pr, j), Outside(pr, Apply(pr, j, Begin(x)));
    assert o1 == H.Exec(pr.setup, o, e);
    assert forall n :: n in o1.drives ==> n in o.drives || n == j.unused;
  }

  lemma BeginKeeps(pr: Program, j: Joint, x: Id, id: Id)
    requires Sourced(pr) && Inv(pr, j) && Told(pr, j, id)
    requires x in Database(pr, j).held && Database(pr, j).held[x].Claimed?
    ensures Inv(pr, Apply(pr, j, Begin(x))) && Told(pr, Apply(pr, j, Begin(x)), id)
  {
    var j1 := Apply(pr, j, Begin(x));
    forall y ensures Linked(Database(pr, j1), Outside(pr, j1), j1.drive, y) {
      BeginLinks(pr, j, x, y);
    }
    BeginUsesNumber(pr, j, x);
    Longer(pr, j.actions, S.On(x, L.BeginDrive));
    BeginKeepsOthers(pr.cfg, Database(pr, j), x, id);
    FurthestGrows(pr, j.events, H.Begin(j.unused, x.text), id.text);
    VerdictAppended(pr, j, S.On(x, L.BeginDrive), id);
  }

  /** The node a driving worker runs succeeds, moves its pipeline run on, and gives the request's own verdict. */
  lemma NodeSucceeds(pr: Program, j: Joint, id: Id)
    requires Sourced(pr) && Inv(pr, j) && Drives(pr, j, id)
    ensures var d := Outside(pr, j).drives[j.drive[id]];
            var d1 := N.Advance(pr.setup.ports, d, Outside(pr, j).world).0;
            && d.next == Some(Database(pr, j).held[id].next)
            && d1.state.request.id == id.text && d1.done == d.done + 1
            && d1.next == Successor(d.next.value, Review(pr, id))
            && N.ToReview(pr.setup.ports, d1.state) == Review(pr, id)
  {
    var p, r := pr.setup.ports, pr.setup.source(id.text);
    var o := Outside(pr, j);
    var f := H.FurthestNode(pr.setup, j.events, id.text);
    assert Linked(Database(pr, j), o, j.drive, id);
    assert H.Sourced(pr.setup, id.text);
    H.EveryHistoryOnTrack(pr.setup, j.events, id.text);
    var d := o.drives[j.drive[id]];
    assert H.OnPlan(pr.setup, o.world, d, f);
    E.AdvanceOnPlan(p, r, o.world, d.done, f);
    E.NodeOnPlan(p, r, o.world, d.done, f);
  }

  lemma NodeLinks(pr: Program, j: Joint, x: Id, id: Id)
    requires Sourced(pr) && Inv(pr, j) && Drives(pr, j, x) && x in Database(pr, j).rows
    ensures var j1 := Apply(pr, j, RunNode(x)); Linked(Database(pr, j1), Outside(pr, j1), j1.drive, id)
  {
    var a := Checkpoint(pr, j, x);
    var s := Database(pr, j);
    Longer(pr, j.actions, a);
    LongerOutside(pr, j.events, H.Finish(j.drive[x]));
    NodeSucceeds(pr, j, x);
    NodeMovesOn(pr.cfg, s, x, a.step.output, a.step.review, id);
    EdgesClimb(s.held[x].next, a.step.review);
    assert Linked(s, Outside(pr, j), j.drive, id);
    assert Linked(s, Outside(pr, j), j.drive, x);
  }

  lemma NodeKeeps(pr: Program, j: Joint, x: Id, id: Id)
    requires Sourced(pr) && Inv(pr, j) && Told(pr, j, id) && Drives(pr, j, x) && x in Database(pr, j).rows
    ensures Inv(pr, Apply(pr, j, RunNode(x))) && Told(pr, Apply(pr, j, RunNode(x)), id)
  {
    var j1 := Apply(pr, j, RunNode(x));
    forall y ensures Linked(Database(pr, j1), Outside(pr, j1), j1.drive, y) {
      NodeLinks(pr, j, x, y);
    }
    var a, e := Checkpoint(pr, j, x), H.Finish(j.drive[x]);
    Longer(pr, j.actions, a);
    LongerOutside(pr, j.events, e);
    NodeSucceeds(pr, j, x);
    NodeMovesOn(pr.cfg, Database(pr, j), x, a.step.output, a.step.review, id);
    FurthestGrows(pr, j.events, e, id.text);
    assert Linked(Database(pr, j), Outside(pr, j), j.drive, x);
    VerdictAppended(pr, j, a, id);
  }

  lemma CallLinks(pr: Program, j: Joint, e: H.Event)
    requires Inv(pr, j) && (e.CallOnly? || e.StuckAlert?)
    ensures Inv(pr, j.(events := j.events + [e]))
  {
    var j1 := j.(events := j.events + [e]);
    LongerOutside(pr, j.events, e);
    var s, o, o1 := Database(pr, j), Outside(pr, j), Outside(pr, j1);
    assert o1.drives == o.drives;
    forall y ensures Linked(s, o1, j.drive, y) {
      assert Linked(s, o, j.drive, y);
    }
  }

  lemma CallTells(pr: Program, j: Joint, e: H.Event, id: Id)
    requires Told(pr, j, id)
    ensures Told(pr, j.(events := j.events + [e]), id)
  {
    FurthestGrows(pr, j.events, e, id.text);
  }

  /** Whoever drives a request has its row: rows are never deleted. */
  lemma DrivenHasRow(pr: Program, j: Joint, id: Id)
    requires Drives(pr, j, id)
    ensures id in Database(pr, j).rows
  {
    S.RunRefines(pr.cfg, j.actions, id);
    S.StartIsAbsent(id);
    L.RunKeepsInv(pr.cfg, S.View(S.Start(), id), S.LocalSteps(pr.cfg, j.actions, id));
  }

  lemma {:induction false} RunKeeps(pr: Program, steps: seq<Step>, id: Id)
    requires Sourced(pr)
    ensures Inv(pr, Run(pr, steps)) && Told(pr, Run(pr, steps), id)
  {
    if steps != [] {
      var before, step := steps[..|steps| - 1], steps[|steps| - 1];
      RunKeeps(pr, before, id);
      var j := Run(pr, before);
      match step
      case Protocol(a) =>
        if IsProtocol(a) {
          ProtocolLinks(pr, j, a);
          ProtocolTells(pr, j, a, id);
        }
      case Begin(x) =>
        if x in Database(pr, j).held && Database(pr, j).held[x].Claimed? { BeginKeeps(pr, j, x, id); }
      case RunNode(x) =>
        if Drives(pr, j, x) {
          DrivenHasRow(pr, j, x);
          NodeKeeps(pr, j, x, id);
        }
      case LoseResult(x) =>
        if Drives(pr, j, x) {
          CallLinks(pr, j, H.CallOnly(j.drive[x]));
          CallTells(pr, j, H.CallOnly(j.drive[x]), id);
        }
      case Alert(window, notice) =>
        CallLinks(pr, j, H.StuckAlert(window, notice));
        CallTells(pr, j, H.StuckAlert(window, notice), id);
    }
  }

  // ----- the promise to the customer -----

  lemma EndsAreLast(p: N.Ports, r: N.Request)
    ensures E.Length(p, r) == if E.Reviewed(p, r) then Rank(HumanReview) + 1 else Rank(GenerateReport) + 1
  {
  }

  /** The classifier's reading of a request; output that cannot be read is worth nothing. */
  function Reading(p: N.Ports, r: N.Request): N.Classification {
    match p.parse(p.classify(r))
    case Some(c) => c
    case None => N.Classification("other", "medium", 0.0, "classifier output could not be parsed")
  }

  /** What the customer and the team get, written out from the ports: nothing below the threshold; otherwise one ticket,
      one notification about it, and one mail exactly if there is an address and the gate passes the draft. */
  predicate Promised(p: N.Ports, r: N.Request, e: E.Effects) {
    var c, x := Reading(p, r), p.extract(r);
    var knowledge := p.search(c, x);
    if c.confidence < p.threshold then e.ticket.None? && e.created == [] && e.mails == [] && e.notices == []
    else
      && e.ticket.Some?
      && e.created == [p.describe(r, c, x, knowledge)]
      && e.notices == [p.announce(c, x, e.ticket.value)]
      && var body := p.draft(x, e.ticket.value, knowledge);
      e.mails == if x.email != "" && p.gate(body, x.email) then [A.Email(x.email, p.headline(x), body)] else []
  }

  lemma PlanKeepsPromise(p: N.Ports, r: N.Request, ref: A.TicketRef)
    ensures Promised(p, r, E.EffectsAfter(p, r, ref, E.Length(p, r)))
    ensures E.Reviewed(p, r) <==> Reading(p, r).confidence < p.threshold
  {
  }

  /** Whatever crashes, requeues, reaps, retries and replays happen to it and to others: a request the database calls
      settled has the status its classification leads to, and outside there is exactly what one uninterrupted run
      does: one ticket, one notification and at most the one gated mail if COMPLETED, nothing at all if NEEDS_REVIEW. */
  lemma SettledMeansDoneOnce(pr: Program, steps: seq<Step>, id: Id)
    requires Sourced(pr)
    requires id in Database(pr, Run(pr, steps)).rows && Settled(Database(pr, Run(pr, steps)).rows[id])
    ensures var j := Run(pr, steps);
            var p, r, w := pr.setup.ports, pr.setup.source(id.text), Outside(pr, j).world;
            && Database(pr, j).rows[id].status
               == (if Reading(p, r).confidence < p.threshold then NeedsReview else Completed)
            && Promised(p, r, E.EffectsOf(w, id.text))
            && E.EffectsOf(w, id.text) == E.EffectsAfter(p, r, E.RefIn(w, id.text), E.Length(p, r))
  {
    var j := Run(pr, steps);
    var p, r := pr.setup.ports, pr.setup.source(id.text);
    RunKeeps(pr, steps, id);
    V.SystemSettlesByVerdict(pr.cfg, j.actions, id, Review(pr, id));
    S.SystemCheckpointsAgree(pr.cfg, j.actions, id);
    assert H.Sourced(pr.setup, id.text);
    H.EveryHistoryOnTrack(pr.setup, j.events, id.text);
    EndsAreLast(p, r);
    PlanKeepsPromise(p, r, E.RefIn(Outside(pr, j).world, id.text));
    assert Furthest(pr, j, id) == E.Length(p, r);
  }

  /** A request that is not settled yet has done what one uninterrupted run does up to some node, and at least every
      node it has a checkpoint for. */
  lemma CheckpointedMeansDone(pr: Program, steps: seq<Step>, id: Id, n: Node)
    requires Sourced(pr)
    requires id in Database(pr, Run(pr, steps)).rows && n in Database(pr, Run(pr, steps)).rows[id].steps
    ensures var j := Run(pr, steps);
            var p, r, w := pr.setup.ports, pr.setup.source(id.text), Outside(pr, j).world;
            exists k :: Rank(n) < k <= E.Length(p, r)
                        && E.EffectsOf(w, id.text) == E.EffectsAfter(p, r, E.RefIn(w, id.text), k)
  {
    var j := Run(pr, steps);
    RunKeeps(pr, steps, id);
    assert H.Sourced(pr.setup, id.text);
    H.EveryHistoryOnTrack(pr.setup, j.events, id.text);
    assert Rank(n) < Furthest(pr, j, id);
  }
}
