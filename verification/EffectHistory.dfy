/** Any number of drives of any number of requests, interleaved node by node over shared adapters, crashing and
    restarting anywhere: each request's effects are those of one uninterrupted run. */
module EffectHistory {
  import opened RedisLists
  import opened PipelineGraph
  import opened Nodes
  import opened EffectPlan
  import A = Adapters

  /** `source`: what the database holds of each request; its text never changes. */
  datatype Setup = Setup(ports: Ports, source: string -> Request)

  datatype System = System(world: World, drives: map<nat, Drive>)

  const EMPTY_WORLD := World(A.Tickets(0, map[], []), A.Mail({}, []), A.Notices({}, []))

  datatype Event =
    | Begin(d: nat, id: string)         // a (re-)drive starts, always from the first node
    | Finish(d: nat)                    // the next node runs and its result is kept
    | CallOnly(d: nat)                  // its adapter call happens, its result is lost: retry or crash follows
    | Drop(d: nat)                      // the drive crashes or fails
    | StuckAlert(window: string, notice: A.Notice)

  function Exec(u: Setup, s: System, e: Event): System {
    match e
    case Begin(d, id) => s.(drives := s.drives[d := StartDrive(u.source(id))])
    case Finish(d) =>
      if d !in s.drives then s
      else
        var (drive, w) := Advance(u.ports, s.drives[d], s.world);
        System(w, s.drives[d := drive])
    case CallOnly(d) => if d !in s.drives then s else s.(world := Advance(u.ports, s.drives[d], s.world).1)
    case Drop(d) => s.(drives := s.drives - {d})
    case StuckAlert(window, notice) =>
      s.(world := s.world.(notices := A.AfterNotify(s.world.notices, notice, "stuck-alert-" + window)))
  }

  function Run(u: Setup, events: seq<Event>): System {
    if events == [] then System(EMPTY_WORLD, map[])
    else Exec(u, Run(u, events[..|events| - 1]), events[|events| - 1])
  }

  /** How many nodes the furthest drive of `id` ever carried out, counting a node whose result was lost. */
  function FurthestNode(u: Setup, events: seq<Event>, id: string): nat {
    if events == [] then 0
    else
      var before, e := events[..|events| - 1], events[|events| - 1];
      var f := FurthestNode(u, before, id);
      var s := Run(u, before);
      if (e.Finish? || e.CallOnly?) && e.d in s.drives
         && s.drives[e.d].state.request.id == id && s.drives[e.d].next.Some?
      then Furthest(f, s.drives[e.d].done + 1)
      else f
  }

  predicate Sourced(u: Setup, id: string) { u.source(id).id == id }

  /** A drive that is where the plan says it should be. */
  predicate OnPlan(u: Setup, w: World, d: Drive, f: nat) {
    var r := u.source(d.state.request.id);
    d.done <= f && d.done <= Length(u.ports, r) && d == DriveAfter(u.ports, r, RefIn(w, r.id), d.done)
  }

  ghost predicate OnTrack(u: Setup, s: System, id: string, f: nat) {
    && Consistent(u.ports, u.source(id), s.world, f)
    && forall d :: d in s.drives && s.drives[d].state.request.id == id ==> OnPlan(u, s.world, s.drives[d], f)
  }

  // ----- other requests do not interfere -----

  lemma KeysTellRequestsApart(a: string, b: string)
    requires a != b
    ensures TicketKey(a) != TicketKey(b) && ReplyKey(a) != ReplyKey(b) && NoticeKey(a) != NoticeKey(b)
  {
    assert TicketKey(a)[4..] == a && TicketKey(b)[4..] == b;
    assert |ReplyKey(a)| == |a| + 10 && |ReplyKey(b)| == |b| + 10;
    assert ReplyKey(a)[4..|ReplyKey(a)| - 6] == a && ReplyKey(b)[4..|ReplyKey(b)| - 6] == b;
    assert |NoticeKey(a)| == |a| + 11 && |NoticeKey(b)| == |b| + 11;
    assert NoticeKey(a)[4..|NoticeKey(a)| - 7] == a && NoticeKey(b)[4..|NoticeKey(b)| - 7] == b;
  }

  lemma OtherTicket(w: World, ticket: A.TicketRequest, key: string, id: string)
    requires key != TicketKey(id)
    ensures EffectsOf(w.(tickets := A.AfterCreate(w.tickets, ticket, key).1), id) == EffectsOf(w, id)
  {
    A.UnderExtended(w.tickets.created, A.Entry(key, ticket), TicketKey(id));
  }

  lemma OtherMail(w: World, mail: A.Email, key: string, id: string)
    requires key != ReplyKey(id)
    ensures EffectsOf(w.(mail := A.AfterSend(w.mail, mail, key)), id) == EffectsOf(w, id)
  {
    A.UnderExtended(w.mail.outbox, A.Entry(key, mail), ReplyKey(id));
  }

  lemma OtherNotice(w: World, notice: A.Notice, key: string, id: string)
    requires key != NoticeKey(id)
    ensures EffectsOf(w.(notices := A.AfterNotify(w.notices, notice, key)), id) == EffectsOf(w, id)
  {
    A.UnderExtended(w.notices.sent, A.Entry(key, notice), NoticeKey(id));
  }

  lemma OtherNodeLeavesEffects(p: Ports, n: Node, s: State, w: World, id: string)
    requires s.request.id != id && RunNode(p, n, s, w).Some?
    ensures EffectsOf(RunNode(p, n, s, w).value.1, id) == EffectsOf(w, id)
    ensures RunNode(p, n, s, w).value.0.request == s.request
  {
    var other := s.request.id;
    KeysTellRequestsApart(other, id);
    match n
    case CreateTicket =>
      var ticket := p.describe(s.request, s.classification.value, s.extracted.value, s.knowledge);
      OtherTicket(w, ticket, TicketKey(other), id);
    case DraftReply =>
      var e := s.extracted.value;
      OtherMail(w, A.Email(e.email, p.headline(e), p.draft(e, s.ticket.value, s.knowledge)), ReplyKey(other), id);
    case Notify =>
      OtherNotice(w, p.announce(s.classification.value, s.extracted.value, s.ticket.value), NoticeKey(other), id);
    case _ =>
  }

  lemma OtherAdvanceLeavesEffects(p: Ports, d: Drive, w: World, id: string)
    requires d.state.request.id != id
    ensures EffectsOf(Advance(p, d, w).1, id) == EffectsOf(w, id)
    ensures Advance(p, d, w).0.state.request == d.state.request
  {
    if d.next.Some? && RunNode(p, d.next.value, d.state, w).Some? {
      OtherNodeLeavesEffects(p, d.next.value, d.state, w, id);
    }
  }

  lemma AlertLeavesEffects(w: World, window: string, notice: A.Notice, id: string)
    ensures EffectsOf(w.(notices := A.AfterNotify(w.notices, notice, "stuck-alert-" + window)), id) == EffectsOf(w, id)
  {
    var key := "stuck-alert-" + window;
    assert key[0] == 's' && NoticeKey(id)[0] == 'r';
    OtherNotice(w, notice, key, id);
  }

  /** A change of the world that leaves this request's effects alone keeps everything about it on plan, even if
      the next free ticket number moved. */
  lemma UnrelatedChange(u: Setup, id: string, w: World, w1: World, f: nat)
    requires Sourced(u, id) && Consistent(u.ports, u.source(id), w, f) && EffectsOf(w1, id) == EffectsOf(w, id)
    ensures Consistent(u.ports, u.source(id), w1, f)
    ensures forall k :: 0 <= k <= f ==>
              StateAfter(u.ports, u.source(id), RefIn(w1, id), k) == StateAfter(u.ports, u.source(id), RefIn(w, id), k)
  {
    var p, r := u.ports, u.source(id);
    if EffectsOf(w, id).ticket.None? {
      assert f <= 3 || Reviewed(p, r);
      EffectsIgnoreLaterTicket(p, r, RefIn(w, id), RefIn(w1, id), f);
      forall k | 0 <= k <= f ensures StateAfter(p, r, RefIn(w1, id), k) == StateAfter(p, r, RefIn(w, id), k) {
        EffectsIgnoreLaterTicket(p, r, RefIn(w, id), RefIn(w1, id), k);
      }
    } else {
      assert RefIn(w1, id) == RefIn(w, id);
    }
  }

  lemma UnrelatedChangeKeepsTrack(u: Setup, s: System, s1: System, id: string, f: nat)
    requires Sourced(u, id) && OnTrack(u, s, id, f) && EffectsOf(s1.world, id) == EffectsOf(s.world, id)
    requires forall d :: d in s1.drives && s1.drives[d].state.request.id == id ==>
                         (d in s.drives && s.drives[d] == s1.drives[d]) || s1.drives[d] == StartDrive(u.source(id))
    ensures OnTrack(u, s1, id, f)
  {
    UnrelatedChange(u, id, s.world, s1.world, f);
    forall d | d in s1.drives && s1.drives[d].state.request.id == id ensures OnPlan(u, s1.world, s1.drives[d], f) {
      if d in s.drives && s.drives[d] == s1.drives[d] {
        assert OnPlan(u, s.world, s.drives[d], f);
      } else {
        assert s1.drives[d] == DriveAfter(u.ports, u.source(id), RefIn(s1.world, id), 0);
      }
    }
  }

  // ----- the request's own steps -----

  lemma OwnAdvance(u: Setup, w: World, d: Drive, id: string, f: nat)
    requires Sourced(u, id) && Consistent(u.ports, u.source(id), w, f) && d.state.request.id == id && OnPlan(u, w, d, f)
    requires d.next.Some?
    ensures var (d1, w1) := Advance(u.ports, d, w);
            && RefIn(w1, id) == RefIn(w, id) && Consistent(u.ports, u.source(id), w1, Furthest(f, d.done + 1))
            && OnPlan(u, w1, d1, Furthest(f, d.done + 1)) && d1.state.request.id == id
  {
    AdvanceOnPlan(u.ports, u.source(id), w, d.done, f);
    assert StateAfter(u.ports, u.source(id), RefIn(w, id), d.done + 1).request == u.source(id);
  }

  lemma OwnStepKeepsTrack(u: Setup, s: System, e: Event, id: string, f: nat)
    requires Sourced(u, id) && OnTrack(u, s, id, f)
    requires (e.Finish? || e.CallOnly?) && e.d in s.drives && s.drives[e.d].state.request.id == id
    requires s.drives[e.d].next.Some?
    ensures OnTrack(u, Exec(u, s, e), id, Furthest(f, s.drives[e.d].done + 1))
  {
    var s1, f1 := Exec(u, s, e), Furthest(f, s.drives[e.d].done + 1);
    OwnAdvance(u, s.world, s.drives[e.d], id, f);
    forall d | d in s1.drives && s1.drives[d].state.request.id == id ensures OnPlan(u, s1.world, s1.drives[d], f1) {
      if d != e.d || e.CallOnly? { assert OnPlan(u, s.world, s.drives[d], f); }
    }
  }

  lemma OtherStepKeepsTrack(u: Setup, s: System, e: Event, id: string, f: nat)
    requires Sourced(u, id) && OnTrack(u, s, id, f)
    requires (e.Finish? || e.CallOnly?) && e.d in s.drives
    requires s.drives[e.d].state.request.id != id || s.drives[e.d].next.None?
    ensures OnTrack(u, Exec(u, s, e), id, f)
  {
    var d := s.drives[e.d];
    if d.next.Some? { OtherAdvanceLeavesEffects(u.ports, d, s.world, id); }
    UnrelatedChangeKeepsTrack(u, s, Exec(u, s, e), id, f);
  }

  lemma AlertKeepsTrack(u: Setup, s: System, e: Event, id: string, f: nat)
    requires Sourced(u, id) && OnTrack(u, s, id, f) && e.StuckAlert?
    ensures OnTrack(u, Exec(u, s, e), id, f)
  {
    AlertLeavesEffects(s.world, e.window, e.notice, id);
    UnrelatedChangeKeepsTrack(u, s, Exec(u, s, e), id, f);
  }

  lemma RestKeepsTrack(u: Setup, s: System, e: Event, id: string, f: nat)
    requires Sourced(u, id) && OnTrack(u, s, id, f) && !e.StuckAlert?
    requires e.Begin? || e.Drop? || e.d !in s.drives
    requires e.Begin? ==> Sourced(u, e.id)
    ensures OnTrack(u, Exec(u, s, e), id, f)
  {
    assert Exec(u, s, e).world == s.world;
    UnrelatedChangeKeepsTrack(u, s, Exec(u, s, e), id, f);
  }

  lemma {:induction false} EveryHistoryOnTrack(u: Setup, events: seq<Event>, id: string)
    requires forall x :: Sourced(u, x)
    ensures OnTrack(u, Run(u, events), id, FurthestNode(u, events, id))
  {
    if events != [] {
      var before, e := events[..|events| - 1], events[|events| - 1];
      EveryHistoryOnTrack(u, before, id);
      var s, f := Run(u, before), FurthestNode(u, before, id);
      if e.StuckAlert? {
        AlertKeepsTrack(u, s, e, id, f);
      } else if e.Begin? || e.Drop? || e.d !in s.drives {
        RestKeepsTrack(u, s, e, id, f);
      } else if s.drives[e.d].state.request.id == id && s.drives[e.d].next.Some? {
        OwnStepKeepsTrack(u, s, e, id, f);
      } else {
        OtherStepKeepsTrack(u, s, e, id, f);
      }
    }
  }

  lemma AdvanceKeepsNumbering(p: Ports, d: Drive, w: World)
    requires A.Numbered(w.tickets)
    ensures A.Numbered(Advance(p, d, w).1.tickets)
  {
    if d.next == Some(CreateTicket) && d.state.classification.Some? && d.state.extracted.Some? {
      var ticket :=
        p.describe(d.state.request, d.state.classification.value, d.state.extracted.value, d.state.knowledge);
      A.CreateKeepsNumbering(w.tickets, ticket, TicketKey(d.state.request.id));
    }
  }

  lemma {:induction false} TicketsStayNumbered(u: Setup, events: seq<Event>)
    ensures A.Numbered(Run(u, events).world.tickets)
  {
    if events != [] {
      var before, e := events[..|events| - 1], events[|events| - 1];
      TicketsStayNumbered(u, before);
      var s := Run(u, before);
      if (e.Finish? || e.CallOnly?) && e.d in s.drives {
        AdvanceKeepsNumbering(u.ports, s.drives[e.d], s.world);
      }
    }
  }

  // ----- the theorems -----

  /** A world in which `id` has no effects and would get the ticket it has in `w`. */
  function Before(w: World, id: string): World {
    EMPTY_WORLD.(tickets := A.Tickets(RefIn(w, id).number - 1, map[], []))
  }

  lemma BeforeIsConsistent(u: Setup, w: World, id: string)
    requires Sourced(u, id)
    ensures RefIn(Before(w, id), id) == RefIn(w, id) && Consistent(u.ports, u.source(id), Before(w, id), 0)
  {
  }

  /** Effect equivalence: after any history, what a request did to tickets, outbox and notifications is what one
      uninterrupted run does, cut at the furthest node any of its drives reached; in particular each effect
      happened at most once. */
  lemma EffectsEqualOneRun(u: Setup, events: seq<Event>, id: string)
    requires forall x :: Sourced(u, x)
    ensures var w := Run(u, events).world;
            var alone := RunAlone(u.ports, u.source(id), Before(w, id), FurthestNode(u, events, id)).1;
            EffectsOf(w, id) == EffectsOf(alone, id)
  {
    assert Sourced(u, id);
    var w, f := Run(u, events).world, FurthestNode(u, events, id);
    EveryHistoryOnTrack(u, events, id);
    BeforeIsConsistent(u, w, id);
    RunAloneOnPlan(u.ports, u.source(id), Before(w, id), f);
  }

  lemma FinishedIsPlanned(u: Setup, events: seq<Event>, id: string, d: nat)
    requires forall x :: Sourced(u, x)
    requires d in Run(u, events).drives
    requires Run(u, events).drives[d].state.request.id == id && Run(u, events).drives[d].next.None?
    ensures var r := u.source(id);
            Run(u, events).drives[d] == DriveAfter(u.ports, r, RefIn(Run(u, events).world, id), Length(u.ports, r))
  {
    assert Sourced(u, id);
    EveryHistoryOnTrack(u, events, id);
    assert OnPlan(u, Run(u, events).world, Run(u, events).drives[d], FurthestNode(u, events, id));
  }

  lemma PlannedStatus(p: Ports, r: Request, ref: A.TicketRef)
    ensures DriveAfter(p, r, ref, Length(p, r)).state.status == if Reviewed(p, r) then NeedsReview else Completed
  {
  }

  lemma AloneIsPlanned(u: Setup, w: World, id: string)
    requires Sourced(u, id)
    ensures var r := u.source(id);
            RunAlone(u.ports, r, Before(w, id), Length(u.ports, r)).0
            == DriveAfter(u.ports, r, RefIn(w, id), Length(u.ports, r))
  {
    BeforeIsConsistent(u, w, id);
    RunAloneOnPlan(u.ports, u.source(id), Before(w, id), Length(u.ports, u.source(id)));
  }

  /** Every drive that gets to the end, whichever attempt it belongs to, ends in the state an uninterrupted run
      ends in, hence with the same COMPLETED or NEEDS_REVIEW status and the same report. */
  lemma FinishedDrivesAgree(u: Setup, events: seq<Event>, id: string, d: nat)
    requires forall x :: Sourced(u, x)
    requires d in Run(u, events).drives
    requires Run(u, events).drives[d].state.request.id == id && Run(u, events).drives[d].next.None?
    ensures var s := Run(u, events);
            var r := u.source(id);
            && s.drives[d] == RunAlone(u.ports, r, Before(s.world, id), Length(u.ports, r)).0
            && s.drives[d].state.status == (if Reviewed(u.ports, r) then NeedsReview else Completed)
  {
    assert Sourced(u, id);
    FinishedIsPlanned(u, events, id, d);
    AloneIsPlanned(u, Run(u, events).world, id);
    PlannedStatus(u.ports, u.source(id), RefIn(Run(u, events).world, id));
  }

  /** After any history no two requests have the same ticket. */
  lemma NoSharedTickets(u: Setup, events: seq<Event>, a: string, b: string)
    requires a != b
    ensures var w := Run(u, events).world;
            EffectsOf(w, a).ticket.Some? && EffectsOf(w, b).ticket.Some?
            ==> EffectsOf(w, a).ticket != EffectsOf(w, b).ticket
  {
    var w := Run(u, events).world;
    TicketsStayNumbered(u, events);
    KeysTellRequestsApart(a, b);
    if TicketKey(a) in w.tickets.byKey && TicketKey(b) in w.tickets.byKey {
      A.TicketsDiffer(w.tickets, TicketKey(a), TicketKey(b));
    }
  }

  lemma FinishedIsFurthest(u: Setup, events: seq<Event>, id: string, d: nat)
    requires forall x :: Sourced(u, x)
    requires d in Run(u, events).drives
    requires Run(u, events).drives[d].state.request.id == id && Run(u, events).drives[d].next.None?
    ensures var w, r := Run(u, events).world, u.source(id);
            EffectsOf(w, id) == EffectsAfter(u.ports, r, RefIn(w, id), Length(u.ports, r))
  {
    assert Sourced(u, id);
    EveryHistoryOnTrack(u, events, id);
    assert OnPlan(u, Run(u, events).world, Run(u, events).drives[d], FurthestNode(u, events, id));
    FinishedIsPlanned(u, events, id, d);
  }

  /** The record and the report of a completed drive tell the truth about what happened outside. */
  lemma RecordTellsTheTruth(u: Setup, events: seq<Event>, id: string, d: nat)
    requires forall x :: Sourced(u, x)
    requires d in Run(u, events).drives
    requires Run(u, events).drives[d].state.request.id == id && Run(u, events).drives[d].next.None?
    requires Run(u, events).drives[d].state.status == Completed
    ensures var st, e := Run(u, events).drives[d].state, EffectsOf(Run(u, events).world, id);
            && st.record.Some? && st.reply.Some? && st.extracted.Some? && st.classification.Some?
            && var record := st.record.value;
            && record.ticket == e.ticket == st.ticket
            && (record.replySent <==> e.mails != [])
            && (record.notified <==> e.notices != [])
            && (record.replyHeld <==> !u.ports.gate(st.reply.value.body, st.extracted.value.email))
            && record.classification == st.classification.value && record.extracted == st.extracted.value
            && record.knowledge == st.knowledge
            && st.report == Some(u.ports.report(Some(record)))
  {
    FinishedIsPlanned(u, events, id, d);
    FinishedIsFurthest(u, events, id, d);
    PlannedStatus(u.ports, u.source(id), RefIn(Run(u, events).world, id));
  }

  /** No drive ever fails for want of an earlier node's output: the path supplies what each node requires. */
  lemma RequiredInputsArePresent(u: Setup, events: seq<Event>, id: string, d: nat)
    requires forall x :: Sourced(u, x)
    requires d in Run(u, events).drives
    requires Run(u, events).drives[d].state.request.id == id && Run(u, events).drives[d].next.Some?
    ensures var s := Run(u, events);
            RunNode(u.ports, s.drives[d].next.value, s.drives[d].state, s.world).Some?
  {
    assert Sourced(u, id);
    var s, f := Run(u, events), FurthestNode(u, events, id);
    EveryHistoryOnTrack(u, events, id);
    assert OnPlan(u, s.world, s.drives[d], f);
    NodeOnPlan(u.ports, u.source(id), s.world, s.drives[d].done, f);
  }

  /** Gated effects: a request has a ticket, a mail or a notification only if its classification met the
      threshold, and a mail only to the extracted address and with a text the gate passes for that address. */
  lemma EffectsAreGated(u: Setup, events: seq<Event>, id: string)
    requires forall x :: Sourced(u, x)
    ensures Gated(u.ports, u.source(id), EffectsOf(Run(u, events).world, id))
  {
    assert Sourced(u, id);
    var w, f := Run(u, events).world, FurthestNode(u, events, id);
    EveryHistoryOnTrack(u, events, id);
    PlanIsGated(u.ports, u.source(id), RefIn(w, id), f);
  }

  /** Output that cannot be parsed never causes an effect, whenever the threshold is positive. */
  lemma UnreadableOutputNeverActs(u: Setup, events: seq<Event>, id: string)
    requires forall x :: Sourced(u, x)
    requires u.ports.threshold > 0.0 && u.ports.parse(u.ports.classify(u.source(id))).None?
    ensures var e := EffectsOf(Run(u, events).world, id);
            e.created == [] && e.mails == [] && e.notices == []
  {
    EffectsAreGated(u, events, id);
  }

  /** Why the same pipeline must be chosen on each drive: after `k` nodes under one pipeline, a drive under another
      one sends a request with a ticket to review exactly when the first got as far as the ticket without asking for
      a review and the second asks for one. */
  lemma ChangedVerdictLeavesTicketInReview(p: Ports, q: Ports, r: Request, k: nat)
    requires k <= Length(p, r)
    ensures var w := RunAlone(p, r, EMPTY_WORLD, k).1;
            var (d, w1) := RunAlone(q, r, w, 2);
            d.state.status == NeedsReview && EffectsOf(w1, r.id).ticket.Some?
            <==> !Reviewed(p, r) && k >= 4 && Reviewed(q, r)
  {
    RunAloneOnPlan(p, r, EMPTY_WORLD, k);
    var w := RunAlone(p, r, EMPTY_WORLD, k).1;
    if Reviewed(q, r) {
      ReviewRun(q, r, w);
    } else {
      TrustedRun(q, r, w);
    }
  }

  lemma TrustedRun(p: Ports, r: Request, w: World)
    requires !Reviewed(p, r)
    ensures RunAlone(p, r, w, 2).0.state.status == InProgress
  {
    var s0 := StartDrive(r);
    assert RunAlone(p, r, w, 0) == (s0, w);
    var s1 := Advance(p, s0, w).0;
    assert RunAlone(p, r, w, 1) == (s1, w) && s1.next == Some(Extract);
  }

  lemma ReviewRun(p: Ports, r: Request, w: World)
    requires Reviewed(p, r)
    ensures RunAlone(p, r, w, 2).1 == w && RunAlone(p, r, w, 2).0.state.status == NeedsReview
  {
    var s0 := StartDrive(r);
    assert RunAlone(p, r, w, 0) == (s0, w);
    var s1 := Advance(p, s0, w).0;
    assert RunAlone(p, r, w, 1) == (s1, w) && s1.next == Some(HumanReview);
  }
}
