/** Drives that may each run another pipeline: the budget breaker picks one of two for every drive, and a model whose
    answers vary is one more pipeline for each way it answers.  When a request that is sent to review has a ticket. */
module PipelineChoice {
  import opened RedisLists
  import opened PipelineGraph
  import opened Nodes
  import opened EffectPlan
  import A = Adapters
  import H = EffectHistory

  /** The pipelines there are, by number. */
  datatype Setup = Setup(pipelines: nat -> Ports, source: string -> Request)

  function PortsOf(u: Setup, pipe: nat): Ports { u.pipelines(pipe) }

  /** A drive and the pipeline that was selected for it. */
  datatype Work = Work(pipe: nat, drive: Drive)

  datatype System = System(world: World, works: map<nat, Work>)

  datatype Event =
    | Begin(d: nat, id: string, pipe: nat)
    | Finish(d: nat)
    | CallOnly(d: nat)
    | Drop(d: nat)

  function Exec(u: Setup, s: System, e: Event): System {
    match e
    case Begin(d, id, pipe) => s.(works := s.works[d := Work(pipe, StartDrive(u.source(id)))])
    case Finish(d) =>
      if d !in s.works then s
      else
        var (drive, w) := Advance(PortsOf(u, s.works[d].pipe), s.works[d].drive, s.world);
        System(w, s.works[d := Work(s.works[d].pipe, drive)])
    case CallOnly(d) =>
      if d !in s.works then s
      else s.(world := Advance(PortsOf(u, s.works[d].pipe), s.works[d].drive, s.world).1)
    case Drop(d) => s.(works := s.works - {d})
  }

  function Run(u: Setup, events: seq<Event>): System {
    if events == [] then System(H.EMPTY_WORLD, map[])
    else Exec(u, Run(u, events[..|events| - 1]), events[|events| - 1])
  }

  ghost predicate Sourced(u: Setup) { forall id :: u.source(id).id == id }

  predicate HasTicket(w: World, id: string) { TicketKey(id) in w.tickets.byKey }

  /** `e` carries out the ticket node in a drive of `id`, whether or not its result is kept. */
  predicate MakesTicket(s: System, e: Event, id: string) {
    && (e.Finish? || e.CallOnly?) && e.d in s.works
    && s.works[e.d].drive.state.request.id == id && s.works[e.d].drive.next == Some(CreateTicket)
  }

  predicate Ticketed(u: Setup, events: seq<Event>, id: string) {
    events != [] && (
      var before := events[..|events| - 1];
      Ticketed(u, before, id) || MakesTicket(Run(u, before), events[|events| - 1], id))
  }

  /** A drive is where its own pipeline's plan says, given the ticket the request has or would get. */
  predicate OnOwnPlan(u: Setup, w: World, work: Work) {
    var p, r, k := PortsOf(u, work.pipe), u.source(work.drive.state.request.id), work.drive.done;
    && k <= Length(p, r) && work.drive == DriveAfter(p, r, RefIn(w, r.id), k)
    && (k >= 4 && !Reviewed(p, r) ==> HasTicket(w, r.id))
  }

  ghost predicate OnTrack(u: Setup, s: System, id: string) {
    forall d :: d in s.works && s.works[d].drive.state.request.id == id ==> OnOwnPlan(u, s.world, s.works[d])
  }

  // ----- one node -----

  lemma StateOnPlan(p: Ports, r: Request, w: World, k: nat)
    requires k < Length(p, r) && (k >= 4 && !Reviewed(p, r) ==> HasTicket(w, r.id))
    ensures NextAfter(p, r, k).Some?
    ensures var step := RunNode(p, NextAfter(p, r, k).value, StateAfter(p, r, RefIn(w, r.id), k), w);
            && step.Some? && step.value.0 == StateAfter(p, r, RefIn(w, r.id), k + 1)
            && RefIn(step.value.1, r.id) == RefIn(w, r.id)
            && (HasTicket(step.value.1, r.id) <==> HasTicket(w, r.id) || NextAfter(p, r, k) == Some(CreateTicket))
  {
    if Reviewed(p, r) || k < 3 || k > 5 {
      QuietOnPlan(p, r, w, k, RefIn(w, r.id));
    }
  }

  lemma AdvanceFrom(p: Ports, r: Request, w: World, k: nat)
    requires k < Length(p, r) && (k >= 4 && !Reviewed(p, r) ==> HasTicket(w, r.id))
    ensures var (drive, w1) := Advance(p, DriveAfter(p, r, RefIn(w, r.id), k), w);
            && drive == DriveAfter(p, r, RefIn(w, r.id), k + 1) && RefIn(w1, r.id) == RefIn(w, r.id)
            && (HasTicket(w1, r.id) <==> HasTicket(w, r.id) || NextAfter(p, r, k) == Some(CreateTicket))
  {
    StateOnPlan(p, r, w, k);
    NextOnPlan(p, r, k, RefIn(w, r.id));
  }

  lemma RequestKept(p: Ports, r: Request, ref: A.TicketRef, k: nat)
    ensures StateAfter(p, r, ref, k).request == r
    ensures k <= Length(p, r) ==> (NextAfter(p, r, k).Some? <==> k < Length(p, r))
    ensures NextAfter(p, r, k) == Some(CreateTicket) <==> k == 3 && !Reviewed(p, r)
  {
  }

  lemma AdvanceOwnPlan(u: Setup, w: World, work: Work, id: string)
    requires Sourced(u) && OnOwnPlan(u, w, work) && work.drive.state.request.id == id && work.drive.next.Some?
    ensures var p := PortsOf(u, work.pipe);
            var (drive, w1) := Advance(p, work.drive, w);
            && OnOwnPlan(u, w1, Work(work.pipe, drive)) && drive.state.request.id == id
            && RefIn(w1, id) == RefIn(w, id)
            && (HasTicket(w1, id) <==> HasTicket(w, id) || work.drive.next == Some(CreateTicket))
  {
    var p, r, k := PortsOf(u, work.pipe), u.source(id), work.drive.done;
    RequestKept(p, r, RefIn(w, id), k);
    RequestKept(p, r, RefIn(w, id), k + 1);
    AdvanceFrom(p, r, w, k);
  }

  /** What happens to other requests does not move this one's drives off plan. */
  lemma StaysOnPlan(u: Setup, w: World, w1: World, work: Work, id: string)
    requires Sourced(u) && OnOwnPlan(u, w, work) && work.drive.state.request.id == id
    requires HasTicket(w, id) ==> HasTicket(w1, id) && RefIn(w1, id) == RefIn(w, id)
    ensures OnOwnPlan(u, w1, work)
  {
    var p, r, k := PortsOf(u, work.pipe), u.source(id), work.drive.done;
    if !HasTicket(w, id) {
      EffectsIgnoreLaterTicket(p, r, RefIn(w, id), RefIn(w1, id), k);
    }
  }

  lemma OtherAdvance(u: Setup, w: World, work: Work, id: string)
    requires work.drive.state.request.id != id
    ensures var (drive, w1) := Advance(PortsOf(u, work.pipe), work.drive, w);
            && (HasTicket(w1, id) <==> HasTicket(w, id))
            && (HasTicket(w, id) ==> RefIn(w1, id) == RefIn(w, id))
            && drive.state.request == work.drive.state.request
  {
    H.OtherAdvanceLeavesEffects(PortsOf(u, work.pipe), work.drive, w, id);
    var w1 := Advance(PortsOf(u, work.pipe), work.drive, w).1;
    assert EffectsOf(w1, id).ticket == EffectsOf(w, id).ticket;
  }

  // ----- histories -----

  lemma OwnEventOnTrack(u: Setup, s: System, e: Event, id: string)
    requires Sourced(u) && OnTrack(u, s, id) && (e.Finish? || e.CallOnly?) && e.d in s.works
    requires s.works[e.d].drive.state.request.id == id && s.works[e.d].drive.next.Some?
    ensures OnTrack(u, Exec(u, s, e), id)
    ensures HasTicket(Exec(u, s, e).world, id) <==> HasTicket(s.world, id) || MakesTicket(s, e, id)
  {
    var t := Exec(u, s, e);
    AdvanceOwnPlan(u, s.world, s.works[e.d], id);
    forall d | d in t.works && t.works[d].drive.state.request.id == id ensures OnOwnPlan(u, t.world, t.works[d]) {
      if d != e.d || e.CallOnly? {
        StaysOnPlan(u, s.world, t.world, s.works[d], id);
      }
    }
  }

  lemma OtherEventOnTrack(u: Setup, s: System, e: Event, id: string)
    requires Sourced(u) && OnTrack(u, s, id) && (e.Finish? || e.CallOnly?) && e.d in s.works
    requires s.works[e.d].drive.state.request.id != id || s.works[e.d].drive.next.None?
    ensures OnTrack(u, Exec(u, s, e), id)
    ensures HasTicket(Exec(u, s, e).world, id) <==> HasTicket(s.world, id)
  {
    var t := Exec(u, s, e);
    if s.works[e.d].drive.next.Some? {
      OtherAdvance(u, s.world, s.works[e.d], id);
    }
    forall d | d in t.works && t.works[d].drive.state.request.id == id ensures OnOwnPlan(u, t.world, t.works[d]) {
      StaysOnPlan(u, s.world, t.world, s.works[d], id);
    }
  }

  lemma BeginOnTrack(u: Setup, s: System, e: Event, id: string)
    requires Sourced(u) && OnTrack(u, s, id) && (e.Begin? || e.Drop?)
    ensures OnTrack(u, Exec(u, s, e), id)
  {
    var t := Exec(u, s, e);
    forall d | d in t.works && t.works[d].drive.state.request.id == id ensures OnOwnPlan(u, t.world, t.works[d]) {
      if e.Begin? && d == e.d {
        assert t.works[d].drive == DriveAfter(PortsOf(u, e.pipe), u.source(id), RefIn(t.world, id), 0);
      }
    }
  }

  /** A request has a ticket exactly when one of its drives carried out the ticket node, and each of its drives is on
      the plan of the pipeline selected for it. */
  lemma {:induction false} EveryHistoryOnOwnPlan(u: Setup, events: seq<Event>, id: string)
    requires Sourced(u)
    ensures OnTrack(u, Run(u, events), id)
    ensures HasTicket(Run(u, events).world, id) <==> Ticketed(u, events, id)
  {
    if events != [] {
      var before, e := events[..|events| - 1], events[|events| - 1];
      EveryHistoryOnOwnPlan(u, before, id);
      var s := Run(u, before);
      if e.Begin? || e.Drop? {
        BeginOnTrack(u, s, e, id);
      } else if e.d in s.works {
        if s.works[e.d].drive.state.request.id == id && s.works[e.d].drive.next.Some? {
          OwnEventOnTrack(u, s, e, id);
        } else {
          OtherEventOnTrack(u, s, e, id);
        }
      }
    }
  }

  lemma OwnPlanEnds(p: Ports, r: Request, ref: A.TicketRef, k: nat)
    requires k <= Length(p, r) && NextAfter(p, r, k).None?
    ensures StateAfter(p, r, ref, k).status == if Reviewed(p, r) then NeedsReview else Completed
  {
  }

  /** A finished drive leaves a request in review that has a ticket if and only if its own pipeline reviews the request
      and some drive of the request carried out the ticket node. */
  lemma TicketInReviewExactlyWhen(u: Setup, events: seq<Event>, id: string, d: nat)
    requires Sourced(u) && d in Run(u, events).works
    requires Run(u, events).works[d].drive.state.request.id == id && Run(u, events).works[d].drive.next.None?
    ensures var s := Run(u, events);
            s.works[d].drive.state.status == NeedsReview && HasTicket(s.world, id)
            <==> Reviewed(PortsOf(u, s.works[d].pipe), u.source(id)) && Ticketed(u, events, id)
  {
    EveryHistoryOnOwnPlan(u, events, id);
    var work := Run(u, events).works[d];
    OwnPlanEnds(PortsOf(u, work.pipe), u.source(id), RefIn(Run(u, events).world, id), work.drive.done);
  }

  /** Every drive of the history runs pipeline `a` or pipeline `b`. */
  predicate OnlyTwo(events: seq<Event>, a: nat, b: nat) {
    events == [] || (
      && OnlyTwo(events[..|events| - 1], a, b)
      && (events[|events| - 1].Begin? ==> events[|events| - 1].pipe == a || events[|events| - 1].pipe == b))
  }

  lemma {:induction false} WorksUseTwo(u: Setup, events: seq<Event>, a: nat, b: nat)
    requires OnlyTwo(events, a, b)
    ensures forall d :: d in Run(u, events).works ==>
                          Run(u, events).works[d].pipe == a || Run(u, events).works[d].pipe == b
  {
    if events != [] {
      WorksUseTwo(u, events[..|events| - 1], a, b);
    }
  }

  /** Only a pipeline that does not review the request makes it a ticket. */
  lemma {:induction false} TicketNeedsTrust(u: Setup, events: seq<Event>, id: string, a: nat, b: nat)
    requires Sourced(u) && OnlyTwo(events, a, b) && Ticketed(u, events, id)
    ensures !Reviewed(PortsOf(u, a), u.source(id)) || !Reviewed(PortsOf(u, b), u.source(id))
  {
    var before, e := events[..|events| - 1], events[|events| - 1];
    if Ticketed(u, before, id) {
      TicketNeedsTrust(u, before, id, a, b);
    } else {
      EveryHistoryOnOwnPlan(u, before, id);
      WorksUseTwo(u, before, a, b);
      assert OnOwnPlan(u, Run(u, before).world, Run(u, before).works[e.d]);
    }
  }

  /** If the two pipelines in use judge a request alike, it is never in review with a ticket. */
  lemma SameVerdictNeverBoth(u: Setup, events: seq<Event>, id: string, d: nat, a: nat, b: nat)
    requires Sourced(u) && OnlyTwo(events, a, b) && d in Run(u, events).works
    requires Run(u, events).works[d].drive.state.request.id == id && Run(u, events).works[d].drive.next.None?
    requires Reviewed(PortsOf(u, a), u.source(id)) == Reviewed(PortsOf(u, b), u.source(id))
    ensures !(Run(u, events).works[d].drive.state.status == NeedsReview && HasTicket(Run(u, events).world, id))
  {
    TicketInReviewExactlyWhen(u, events, id, d);
    WorksUseTwo(u, events, a, b);
    if Ticketed(u, events, id) {
      TicketNeedsTrust(u, events, id, a, b);
    }
  }
}
