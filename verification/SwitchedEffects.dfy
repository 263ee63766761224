/** What drives under several pipelines did for one request, effect by effect: each effect happened at most once and is
    the one the first pipeline to carry it out had planned; and when all of them together are one pipeline's doing. */
module SwitchedEffects {
  import opened RedisLists
  import opened PipelineGraph
  import opened Nodes
  import opened EffectPlan
  import opened PipelineChoice
  import A = Adapters
  import H = EffectHistory

  /** The pipeline whose drive made each effect of a request. */
  datatype Credit = Credit(ticket: Option<nat>, mail: Option<nat>, notice: Option<nat>)

  /** A drive under `pipe` carries out node `n`; the first that makes an effect is credited with it. */
  function Credited(u: Setup, r: Request, ref: A.TicketRef, c: Credit, pipe: nat, n: Node): Credit {
    if n.CreateTicket? && c.ticket.None? then c.(ticket := Some(pipe))
    else if n.DraftReply? && c.mail.None? && Mails(PortsOf(u, pipe), r, ref) then c.(mail := Some(pipe))
    else if n.Notify? && c.notice.None? then c.(notice := Some(pipe))
    else c
  }

  /** `e` carries out a node in a drive of `id`, whether or not its result is kept. */
  predicate CarriesOut(s: System, e: Event, id: string) {
    && (e.Finish? || e.CallOnly?) && e.d in s.works
    && s.works[e.d].drive.state.request.id == id && s.works[e.d].drive.next.Some?
  }

  function CreditOf(u: Setup, events: seq<Event>, id: string): Credit {
    if events == [] then Credit(None, None, None)
    else
      var before, e := events[..|events| - 1], events[|events| - 1];
      var s, c := Run(u, before), CreditOf(u, before, id);
      if CarriesOut(s, e, id)
      then Credited(u, u.source(id), RefIn(s.world, id), c, s.works[e.d].pipe, s.works[e.d].drive.next.value) else c
  }

  function MailOf(p: Ports, r: Request, ref: A.TicketRef): A.Email {
    A.Email(p.extract(r).email, p.headline(p.extract(r)), Body(p, r, ref))
  }

  function NoticeOf(p: Ports, r: Request, ref: A.TicketRef): A.Notice { p.announce(Verdict(p, r), p.extract(r), ref) }

  /** Each effect as planned by the pipeline credited with it. */
  function EffectsBy(u: Setup, r: Request, ref: A.TicketRef, c: Credit): Effects {
    Effects(
      if c.ticket.Some? then Some(ref) else None,
      if c.ticket.Some? then [Ticket(PortsOf(u, c.ticket.value), r)] else [],
      c.mail.Some?,
      if c.mail.Some? then [MailOf(PortsOf(u, c.mail.value), r, ref)] else [],
      c.notice.Some?,
      if c.notice.Some? then [NoticeOf(PortsOf(u, c.notice.value), r, ref)] else [])
  }

  predicate Trusted(u: Setup, r: Request, pipe: nat) { !Reviewed(PortsOf(u, pipe), r) }

  /** Only pipelines that trust the classification act, mails go out only where their own pipeline lets them, and nobody
      notifies before the mail was dealt with. */
  predicate Earned(u: Setup, r: Request, ref: A.TicketRef, c: Credit) {
    && (c.ticket.Some? ==> Trusted(u, r, c.ticket.value))
    && (c.mail.Some? ==> c.ticket.Some? && Trusted(u, r, c.mail.value) && Mails(PortsOf(u, c.mail.value), r, ref))
    && (c.notice.Some? ==>
          && c.ticket.Some? && Trusted(u, r, c.notice.value)
          && (c.mail.Some? || !Mails(PortsOf(u, c.notice.value), r, ref)))
  }

  /** A drive that is past a node has made its effect or found it made. */
  predicate Caught(u: Setup, w: World, work: Work, c: Credit) {
    var p, r, k := PortsOf(u, work.pipe), u.source(work.drive.state.request.id), work.drive.done;
    !Reviewed(p, r) ==>
      && (k >= 5 ==> c.mail.Some? || !Mails(p, r, RefIn(w, r.id)))
      && (k >= 6 ==> c.notice.Some?)
  }

  ghost predicate AllCaught(u: Setup, s: System, id: string, c: Credit) {
    forall d :: d in s.works && s.works[d].drive.state.request.id == id ==> Caught(u, s.world, s.works[d], c)
  }

  /** The world did for `id` what the credits say. */
  predicate Did(u: Setup, w: World, id: string, c: Credit) {
    EffectsOf(w, id) == EffectsBy(u, u.source(id), RefIn(w, id), c)
  }

  /** The world and the credits tell the same story about `id`. */
  predicate Tallies(u: Setup, w: World, id: string, c: Credit) {
    && Did(u, w, id, c)
    && Earned(u, u.source(id), RefIn(w, id), c)
  }

  // ----- one node -----

  /** Node `n`, carried out under `pipe`, took the world from `w` to `w1`, and the credits went along. */
  predicate Moved(u: Setup, id: string, w: World, w1: World, c: Credit, pipe: nat, n: Node) {
    RefIn(w1, id) == RefIn(w, id) && Did(u, w1, id, Credited(u, u.source(id), RefIn(w, id), c, pipe, n))
  }

  lemma NothingDone(u: Setup, id: string, w: World, c: Credit, pipe: nat, n: Node)
    requires Did(u, w, id, c) && !n.CreateTicket? && !n.Notify?
    requires n.DraftReply? ==> !Mails(PortsOf(u, pipe), u.source(id), RefIn(w, id))
    ensures Moved(u, id, w, w, c, pipe, n)
  {
  }

  lemma TicketDone(u: Setup, id: string, w: World, c: Credit, pipe: nat)
    requires Sourced(u) && Did(u, w, id, c)
    requires c.ticket.None? ==> c.mail.None? && c.notice.None?
    ensures var p, r := PortsOf(u, pipe), u.source(id);
            var w1 := w.(tickets := A.AfterCreate(w.tickets, Ticket(p, r), TicketKey(id)).1);
            Moved(u, id, w, w1, c, pipe, CreateTicket)
  {
    A.UnderExtended(w.tickets.created, A.Entry(TicketKey(id), Ticket(PortsOf(u, pipe), u.source(id))), TicketKey(id));
  }

  lemma MailDone(u: Setup, id: string, w: World, c: Credit, pipe: nat)
    requires Sourced(u) && Did(u, w, id, c) && Mails(PortsOf(u, pipe), u.source(id), RefIn(w, id))
    ensures var p, r := PortsOf(u, pipe), u.source(id);
            var w1 := w.(mail := A.AfterSend(w.mail, MailOf(p, r, RefIn(w, id)), ReplyKey(id)));
            Moved(u, id, w, w1, c, pipe, DraftReply)
  {
    var mail := MailOf(PortsOf(u, pipe), u.source(id), RefIn(w, id));
    assert ReplyKey(id) in w.mail.byKey <==> c.mail.Some?;
    A.UnderExtended(w.mail.outbox, A.Entry(ReplyKey(id), mail), ReplyKey(id));
  }

  lemma NoticeDone(u: Setup, id: string, w: World, c: Credit, pipe: nat)
    requires Sourced(u) && Did(u, w, id, c)
    ensures var p, r := PortsOf(u, pipe), u.source(id);
            var w1 := w.(notices := A.AfterNotify(w.notices, NoticeOf(p, r, RefIn(w, id)), NoticeKey(id)));
            Moved(u, id, w, w1, c, pipe, Notify)
  {
    var notice := NoticeOf(PortsOf(u, pipe), u.source(id), RefIn(w, id));
    assert NoticeKey(id) in w.notices.seen <==> c.notice.Some?;
    A.UnderExtended(w.notices.sent, A.Entry(NoticeKey(id), notice), NoticeKey(id));
  }

  lemma NodeEarns(u: Setup, r: Request, ref: A.TicketRef, c: Credit, pipe: nat, n: Node)
    requires Earned(u, r, ref, c)
    requires n.CreateTicket? || n.DraftReply? || n.Notify? ==> Trusted(u, r, pipe)
    requires n.DraftReply? || n.Notify? ==> c.ticket.Some?
    requires n.Notify? ==> c.mail.Some? || !Mails(PortsOf(u, pipe), r, ref)
    ensures Earned(u, r, ref, Credited(u, r, ref, c, pipe, n))
  {
  }

  /** The world after a drive that is on plan carries out its next node. */
  function WorldAfter(p: Ports, r: Request, w: World, k: nat): World {
    Advance(p, DriveAfter(p, r, RefIn(w, r.id), k), w).1
  }

  lemma WorldAfterIs(p: Ports, r: Request, w: World, k: nat)
    requires k < Length(p, r)
    ensures (Reviewed(p, r) || k < 3 || k > 5) ==> WorldAfter(p, r, w, k) == w
    ensures !Reviewed(p, r) && k == 3 ==>
              WorldAfter(p, r, w, k) == w.(tickets := A.AfterCreate(w.tickets, Ticket(p, r), TicketKey(r.id)).1)
    ensures !Reviewed(p, r) && k == 4 ==>
              WorldAfter(p, r, w, k) ==
              if Mails(p, r, RefIn(w, r.id))
              then w.(mail := A.AfterSend(w.mail, MailOf(p, r, RefIn(w, r.id)), ReplyKey(r.id))) else w
    ensures !Reviewed(p, r) && k == 5 ==>
              WorldAfter(p, r, w, k)
              == w.(notices := A.AfterNotify(w.notices, NoticeOf(p, r, RefIn(w, r.id)), NoticeKey(r.id)))
  {
    if Reviewed(p, r) || k < 3 || k > 5 {
      QuietOnPlan(p, r, w, k, RefIn(w, r.id));
    }
  }

  lemma NodeDid(u: Setup, id: string, w: World, c: Credit, pipe: nat, k: nat)
    requires Sourced(u) && Did(u, w, id, c) && k < Length(PortsOf(u, pipe), u.source(id))
    requires c.ticket.None? ==> c.mail.None? && c.notice.None?
    ensures NextAfter(PortsOf(u, pipe), u.source(id), k).Some?
    ensures var p, r := PortsOf(u, pipe), u.source(id);
            Moved(u, id, w, WorldAfter(p, r, w, k), c, pipe, NextAfter(p, r, k).value)
  {
    var p, r := PortsOf(u, pipe), u.source(id);
    WorldAfterIs(p, r, w, k);
    if Reviewed(p, r) || k < 3 || k > 5 {
      NothingDone(u, id, w, c, pipe, NextAfter(p, r, k).value);
    } else if k == 3 {
      TicketDone(u, id, w, c, pipe);
    } else if k == 5 {
      NoticeDone(u, id, w, c, pipe);
    } else if Mails(p, r, RefIn(w, id)) {
      MailDone(u, id, w, c, pipe);
    } else {
      NothingDone(u, id, w, c, pipe, DraftReply);
    }
  }

  lemma TicketCredited(u: Setup, w: World, id: string, c: Credit)
    requires Did(u, w, id, c)
    ensures HasTicket(w, id) <==> c.ticket.Some?
  {
    assert HasTicket(w, id) <==> EffectsOf(w, id).ticket.Some?;
  }

  lemma NodeTallies(u: Setup, id: string, w: World, c: Credit, pipe: nat, k: nat)
    requires Sourced(u) && Tallies(u, w, id, c)
    requires var p, r := PortsOf(u, pipe), u.source(id);
             && k < Length(p, r)
             && (!Reviewed(p, r) && k >= 4 ==> HasTicket(w, id))
             && (!Reviewed(p, r) && k >= 5 ==> c.mail.Some? || !Mails(p, r, RefIn(w, id)))
    ensures var p, r := PortsOf(u, pipe), u.source(id);
            NextAfter(p, r, k).Some?
            && Tallies(u, WorldAfter(p, r, w, k), id,
                       Credited(u, r, RefIn(w, id), c, pipe, NextAfter(p, r, k).value))
  {
    var p, r := PortsOf(u, pipe), u.source(id);
    NodeDid(u, id, w, c, pipe, k);
    TicketCredited(u, w, id, c);
    NodeEarns(u, r, RefIn(w, id), c, pipe, NextAfter(p, r, k).value);
  }

  lemma CreditsOnlyGrow(u: Setup, r: Request, ref: A.TicketRef, c: Credit, pipe: nat, n: Node)
    ensures var c1 := Credited(u, r, ref, c, pipe, n);
            && (c.ticket.Some? ==> c1.ticket == c.ticket) && (c.mail.Some? ==> c1.mail == c.mail)
            && (c.notice.Some? ==> c1.notice == c.notice)
    ensures n.DraftReply? ==> Credited(u, r, ref, c, pipe, n).mail.Some? || !Mails(PortsOf(u, pipe), r, ref)
    ensures n.Notify? ==> Credited(u, r, ref, c, pipe, n).notice.Some?
  {
  }

  // ----- histories -----

  lemma OwnDriveCaught(u: Setup, w: World, w1: World, work: Work, c: Credit, c1: Credit, id: string)
    requires Sourced(u) && Caught(u, w, work, c) && work.drive.state.request.id == id && RefIn(w1, id) == RefIn(w, id)
    requires c.mail.Some? ==> c1.mail.Some?
    requires c.notice.Some? ==> c1.notice.Some?
    ensures Caught(u, w1, work, c1)
  {
  }

  lemma AdvancedIsCaught(u: Setup, w: World, work: Work, c: Credit, id: string)
    requires Sourced(u) && OnOwnPlan(u, w, work) && Caught(u, w, work, c)
    requires work.drive.state.request.id == id && work.drive.next.Some?
    ensures var (drive, w1) := Advance(PortsOf(u, work.pipe), work.drive, w);
            var c1 := Credited(u, u.source(id), RefIn(w, id), c, work.pipe, work.drive.next.value);
            Caught(u, w1, Work(work.pipe, drive), c1)
  {
    var p, r, k := PortsOf(u, work.pipe), u.source(id), work.drive.done;
    RequestKept(p, r, RefIn(w, id), k);
    RequestKept(p, r, RefIn(w, id), k + 1);
    AdvanceFrom(p, r, w, k);
    CreditsOnlyGrow(u, r, RefIn(w, id), c, work.pipe, work.drive.next.value);
  }

  lemma OwnEventTallies(u: Setup, s: System, e: Event, id: string, c: Credit)
    requires Sourced(u) && OnTrack(u, s, id) && Tallies(u, s.world, id, c) && AllCaught(u, s, id, c)
    requires CarriesOut(s, e, id)
    ensures var work := s.works[e.d];
            var c1 := Credited(u, u.source(id), RefIn(s.world, id), c, work.pipe, work.drive.next.value);
            Tallies(u, Exec(u, s, e).world, id, c1) && AllCaught(u, Exec(u, s, e), id, c1)
  {
    var t, work := Exec(u, s, e), s.works[e.d];
    var p, r, k := PortsOf(u, work.pipe), u.source(id), work.drive.done;
    assert OnOwnPlan(u, s.world, work) && Caught(u, s.world, work, c);
    RequestKept(p, r, RefIn(s.world, id), k);
    NodeTallies(u, id, s.world, c, work.pipe, k);
    AdvanceOwnPlan(u, s.world, work, id);
    AdvancedIsCaught(u, s.world, work, c, id);
    CreditsOnlyGrow(u, r, RefIn(s.world, id), c, work.pipe, work.drive.next.value);
    var c1 := Credited(u, r, RefIn(s.world, id), c, work.pipe, work.drive.next.value);
    forall d | d in t.works && t.works[d].drive.state.request.id == id ensures Caught(u, t.world, t.works[d], c1) {
      if d != e.d || e.CallOnly? {
        OwnDriveCaught(u, s.world, t.world, s.works[d], c, c1, id);
      }
    }
  }

  /** With no ticket there is no effect, and the plan's entries do not depend on the number it may get. */
  lemma NoTicketNoMatter(u: Setup, r: Request, c: Credit, a: A.TicketRef, b: A.TicketRef)
    requires Earned(u, r, a, c) && c.ticket.None?
    ensures EffectsBy(u, r, a, c) == EffectsBy(u, r, b, c) && Earned(u, r, b, c)
  {
  }

  lemma OthersLeaveTally(u: Setup, w: World, w1: World, id: string, c: Credit)
    requires Sourced(u) && Tallies(u, w, id, c) && EffectsOf(w1, id) == EffectsOf(w, id)
    ensures Tallies(u, w1, id, c)
    ensures c.ticket.Some? ==> RefIn(w1, id) == RefIn(w, id)
  {
    if c.ticket.None? {
      NoTicketNoMatter(u, u.source(id), c, RefIn(w, id), RefIn(w1, id));
    }
  }

  lemma OthersLeaveCaught(u: Setup, w: World, w1: World, work: Work, id: string, c: Credit)
    requires Sourced(u) && work.drive.state.request.id == id && OnOwnPlan(u, w, work)
    requires Caught(u, w, work, c) && Tallies(u, w, id, c) && EffectsOf(w1, id) == EffectsOf(w, id)
    ensures Caught(u, w1, work, c)
  {
    OthersLeaveTally(u, w, w1, id, c);
    assert HasTicket(w, id) <==> EffectsOf(w, id).ticket.Some?;
  }

  lemma OtherEventTallies(u: Setup, s: System, e: Event, id: string, c: Credit)
    requires Sourced(u) && OnTrack(u, s, id) && Tallies(u, s.world, id, c) && AllCaught(u, s, id, c)
    requires !CarriesOut(s, e, id)
    ensures Tallies(u, Exec(u, s, e).world, id, c) && AllCaught(u, Exec(u, s, e), id, c)
  {
    var t := Exec(u, s, e);
    if (e.Finish? || e.CallOnly?) && e.d in s.works && s.works[e.d].drive.next.Some? {
      H.OtherAdvanceLeavesEffects(PortsOf(u, s.works[e.d].pipe), s.works[e.d].drive, s.world, id);
    }
    OthersLeaveTally(u, s.world, t.world, id, c);
    forall d | d in t.works && t.works[d].drive.state.request.id == id ensures Caught(u, t.world, t.works[d], c) {
      if d in s.works && t.works[d] == s.works[d] {
        OthersLeaveCaught(u, s.world, t.world, s.works[d], id, c);
      }
    }
  }

  lemma {:induction false} EveryHistoryTallies(u: Setup, events: seq<Event>, id: string)
    requires Sourced(u)
    ensures Tallies(u, Run(u, events).world, id, CreditOf(u, events, id))
    ensures AllCaught(u, Run(u, events), id, CreditOf(u, events, id))
  {
    if events != [] {
      var before, e := events[..|events| - 1], events[|events| - 1];
      EveryHistoryTallies(u, before, id);
      EveryHistoryOnOwnPlan(u, before, id);
      if CarriesOut(Run(u, before), e, id) {
        OwnEventTallies(u, Run(u, before), e, id, CreditOf(u, before, id));
      } else {
        OtherEventTallies(u, Run(u, before), e, id, CreditOf(u, before, id));
      }
    }
  }

  /** Under any switching of pipelines, with any crashes: each effect of a request is exactly what the first pipeline
      that carried it out had planned, under the one ticket the request has. */
  lemma EffectsAreCredited(u: Setup, events: seq<Event>, id: string)
    requires Sourced(u)
    ensures var w := Run(u, events).world;
            EffectsOf(w, id) == EffectsBy(u, u.source(id), RefIn(w, id), CreditOf(u, events, id))
  {
    EveryHistoryTallies(u, events, id);
  }

  /** At most one ticket, mail and notification each; the mail went to the recipient of the pipeline that sent it, past
      that pipeline's own gate, and each effect needs a classification its own pipeline trusts. */
  lemma SwitchedEffectsOnceAndGated(u: Setup, events: seq<Event>, id: string)
    requires Sourced(u)
    ensures var e, c := EffectsOf(Run(u, events).world, id), CreditOf(u, events, id);
            var r := u.source(id);
            && |e.created| <= 1 && |e.mails| <= 1 && |e.notices| <= 1
            && (e.created != [] ==> c.ticket.Some? && Trusted(u, r, c.ticket.value))
            && (e.notices != [] ==> c.notice.Some? && Trusted(u, r, c.notice.value))
            && (e.mails != [] ==>
                  && c.mail.Some? && Trusted(u, r, c.mail.value)
                  && var p := PortsOf(u, c.mail.value);
                  && e.mails[0].to == p.extract(r).email != "" && p.gate(e.mails[0].body, e.mails[0].to))
  {
    EveryHistoryTallies(u, events, id);
  }

  // ----- when it is one pipeline's doing -----

  predicate PlanAt(u: Setup, r: Request, e: Effects, pipe: nat, ref: A.TicketRef, k: nat) {
    k <= Length(PortsOf(u, pipe), r) && e == EffectsAfter(PortsOf(u, pipe), r, ref, k)
  }

  /** The effects are those of one uninterrupted run of `pipe`, cut at some node. */
  ghost predicate IsRunOf(u: Setup, r: Request, e: Effects, pipe: nat) {
    exists ref: A.TicketRef, k: nat :: PlanAt(u, r, e, pipe, ref, k)
  }

  predicate SameTicket(u: Setup, r: Request, a: nat, b: nat) { Ticket(PortsOf(u, a), r) == Ticket(PortsOf(u, b), r) }

  /** Both pipelines would send the same mail, or neither would send one. */
  predicate SameMail(u: Setup, r: Request, ref: A.TicketRef, a: nat, b: nat) {
    && (Mails(PortsOf(u, a), r, ref) <==> Mails(PortsOf(u, b), r, ref))
    && (Mails(PortsOf(u, a), r, ref) ==> MailOf(PortsOf(u, a), r, ref) == MailOf(PortsOf(u, b), r, ref))
  }

  predicate SameNotice(u: Setup, r: Request, ref: A.TicketRef, a: nat, b: nat) {
    NoticeOf(PortsOf(u, a), r, ref) == NoticeOf(PortsOf(u, b), r, ref)
  }

  /** What `pipe` plans is what the credited pipelines did, as far as they got. */
  predicate Matches(u: Setup, r: Request, ref: A.TicketRef, c: Credit, pipe: nat) {
    c.ticket.Some? ==>
      && Trusted(u, r, pipe) && SameTicket(u, r, c.ticket.value, pipe)
      && (c.mail.Some? ==> SameMail(u, r, ref, c.mail.value, pipe))
      && (c.notice.Some? ==>
            && SameNotice(u, r, ref, c.notice.value, pipe)
            && (Mails(PortsOf(u, pipe), r, ref) ==> c.mail.Some?))
  }

  lemma MatchIsRun(u: Setup, r: Request, ref: A.TicketRef, c: Credit, pipe: nat)
    requires Earned(u, r, ref, c) && Matches(u, r, ref, c, pipe)
    ensures IsRunOf(u, r, EffectsBy(u, r, ref, c), pipe)
  {
    var k := if c.notice.Some? then 6 else if c.mail.Some? then 5 else if c.ticket.Some? then 4 else 0;
    assert PlanAt(u, r, EffectsBy(u, r, ref, c), pipe, ref, k);
  }

  lemma RunIsMatch(u: Setup, r: Request, ref: A.TicketRef, c: Credit, pipe: nat, other: A.TicketRef, k: nat)
    requires Earned(u, r, ref, c) && PlanAt(u, r, EffectsBy(u, r, ref, c), pipe, other, k)
    ensures Matches(u, r, ref, c, pipe)
  {
    var e, plan := EffectsBy(u, r, ref, c), EffectsAfter(PortsOf(u, pipe), r, other, k);
    if c.ticket.Some? {
      assert plan.ticket == Some(ref);
      assert plan.created[0] == e.created[0];
      if c.mail.Some? {
        assert plan.mails[0] == e.mails[0];
      }
      if c.notice.Some? {
        assert plan.notices[0] == e.notices[0];
      }
    }
  }

  /** After any history, what a request did is one run of `pipe` if and only if the entries of the credited pipelines
      are those of `pipe`, with no mail missing. */
  lemma RunOfOnePipelineExactlyWhen(u: Setup, events: seq<Event>, id: string, pipe: nat)
    requires Sourced(u)
    ensures var w, r := Run(u, events).world, u.source(id);
            IsRunOf(u, r, EffectsOf(w, id), pipe)
            <==> Matches(u, r, RefIn(w, id), CreditOf(u, events, id), pipe)
  {
    EveryHistoryTallies(u, events, id);
    var w, r, c := Run(u, events).world, u.source(id), CreditOf(u, events, id);
    if Matches(u, r, RefIn(w, id), c, pipe) {
      MatchIsRun(u, r, RefIn(w, id), c, pipe);
    }
    if ref: A.TicketRef, k: nat :| PlanAt(u, r, EffectsOf(w, id), pipe, ref, k) {
      RunIsMatch(u, r, RefIn(w, id), c, pipe, ref, k);
    }
  }

  /** Two pipelines may be switched at will: one of them sends the request to review, or they agree on at least two of
      its ticket, its mail and its notification. */
  predicate Interchangeable(u: Setup, r: Request, ref: A.TicketRef, a: nat, b: nat) {
    || !Trusted(u, r, a) || !Trusted(u, r, b)
    || (SameTicket(u, r, a, b) && SameMail(u, r, ref, a, b))
    || (SameTicket(u, r, a, b) && SameNotice(u, r, ref, a, b))
    || (SameMail(u, r, ref, a, b) && SameNotice(u, r, ref, a, b))
  }

  predicate OneOf(o: Option<nat>, a: nat, b: nat) { o.Some? ==> o.value == a || o.value == b }

  lemma {:induction false} CreditsUseTwo(u: Setup, events: seq<Event>, id: string, a: nat, b: nat)
    requires OnlyTwo(events, a, b)
    ensures var c := CreditOf(u, events, id); OneOf(c.ticket, a, b) && OneOf(c.mail, a, b) && OneOf(c.notice, a, b)
  {
    if events != [] {
      CreditsUseTwo(u, events[..|events| - 1], id, a, b);
      WorksUseTwo(u, events[..|events| - 1], a, b);
    }
  }

  lemma MajorityMatches(u: Setup, r: Request, ref: A.TicketRef, c: Credit, a: nat, b: nat)
    requires Earned(u, r, ref, c) && OneOf(c.ticket, a, b) && OneOf(c.mail, a, b) && OneOf(c.notice, a, b)
    requires Interchangeable(u, r, ref, a, b)
    ensures Matches(u, r, ref, c, a) || Matches(u, r, ref, c, b)
  {
  }

  ghost predicate IsRunOfEither(u: Setup, events: seq<Event>, id: string, a: nat, b: nat) {
    var e := EffectsOf(Run(u, events).world, id);
    IsRunOf(u, u.source(id), e, a) || IsRunOf(u, u.source(id), e, b)
  }

  /** Drives that switch between two interchangeable pipelines do what one uninterrupted run of one of them does. */
  lemma SwitchingIsSafe(u: Setup, events: seq<Event>, id: string, a: nat, b: nat)
    requires Sourced(u) && OnlyTwo(events, a, b)
    requires Interchangeable(u, u.source(id), RefIn(Run(u, events).world, id), a, b)
    ensures IsRunOfEither(u, events, id, a, b)
  {
    EveryHistoryTallies(u, events, id);
    CreditsUseTwo(u, events, id, a, b);
    MajorityMatches(u, u.source(id), RefIn(Run(u, events).world, id), CreditOf(u, events, id), a, b);
    RunOfOnePipelineExactlyWhen(u, events, id, a);
    RunOfOnePipelineExactlyWhen(u, events, id, b);
  }

  // ----- and when it is not -----

  /** Drive 0 runs `pipe` for `id` and has `k` nodes behind it. */
  predicate At(u: Setup, events: seq<Event>, id: string, pipe: nat, k: nat) {
    var s, r := Run(u, events), u.source(id);
    0 in s.works && s.works[0] == Work(pipe, DriveAfter(PortsOf(u, pipe), r, RefIn(s.world, id), k))
  }

  /** The credits after a drive under `pipe` carried out its first `k` nodes. */
  function CreditAfter(u: Setup, r: Request, ref: A.TicketRef, c: Credit, pipe: nat, k: nat): Credit {
    if k == 0 then c
    else
      var before := CreditAfter(u, r, ref, c, pipe, k - 1);
      var n := NextAfter(PortsOf(u, pipe), r, k - 1);
      if n.Some? then Credited(u, r, ref, before, pipe, n.value) else before
  }

  lemma Appended(u: Setup, events: seq<Event>, e: Event)
    ensures Run(u, events + [e]) == Exec(u, Run(u, events), e)
    ensures forall id :: CreditOf(u, events + [e], id) ==
              var s, c := Run(u, events), CreditOf(u, events, id);
              if CarriesOut(s, e, id)
              then Credited(u, u.source(id), RefIn(s.world, id), c, s.works[e.d].pipe, s.works[e.d].drive.next.value)
              else c
  {
    assert (events + [e])[..|events|] == events;
  }

  lemma AppendedPipes(events: seq<Event>, e: Event, a: nat, b: nat)
    requires OnlyTwo(events, a, b) && (e.Begin? ==> e.pipe == a || e.pipe == b)
    ensures OnlyTwo(events + [e], a, b)
  {
    assert (events + [e])[..|events|] == events;
  }

  lemma OneNode(u: Setup, events: seq<Event>, id: string, pipe: nat, k: nat)
    requires Sourced(u) && At(u, events, id, pipe, k) && k < Length(PortsOf(u, pipe), u.source(id))
    ensures At(u, events + [Finish(0)], id, pipe, k + 1)
    ensures RefIn(Run(u, events + [Finish(0)]).world, id) == RefIn(Run(u, events).world, id)
    ensures var r, n := u.source(id), NextAfter(PortsOf(u, pipe), u.source(id), k);
            && n.Some?
            && CreditOf(u, events + [Finish(0)], id)
               == Credited(u, r, RefIn(Run(u, events).world, id), CreditOf(u, events, id), pipe, n.value)
  {
    var s, p, r := Run(u, events), PortsOf(u, pipe), u.source(id);
    Appended(u, events, Finish(0));
    EveryHistoryOnOwnPlan(u, events, id);
    RequestKept(p, r, RefIn(s.world, id), k);
    assert OnOwnPlan(u, s.world, s.works[0]);
    AdvanceFrom(p, r, s.world, k);
  }

  lemma {:induction false} DriveNodes(u: Setup, events: seq<Event>, id: string, pipe: nat, k: nat, a: nat, b: nat)
    returns (longer: seq<Event>)
    requires Sourced(u) && k <= Length(PortsOf(u, pipe), u.source(id))
    requires OnlyTwo(events, a, b) && (pipe == a || pipe == b)
    ensures events <= longer && OnlyTwo(longer, a, b) && At(u, longer, id, pipe, k)
    ensures RefIn(Run(u, longer).world, id) == RefIn(Run(u, events).world, id)
    ensures CreditOf(u, longer, id)
            == CreditAfter(u, u.source(id), RefIn(Run(u, events).world, id), CreditOf(u, events, id), pipe, k)
  {
    if k == 0 {
      longer := events + [Begin(0, id, pipe)];
      Appended(u, events, Begin(0, id, pipe));
      AppendedPipes(events, Begin(0, id, pipe), a, b);
    } else {
      var before := DriveNodes(u, events, id, pipe, k - 1, a, b);
      OneNode(u, before, id, pipe, k - 1);
      AppendedPipes(before, Finish(0), a, b);
      longer := before + [Finish(0)];
    }
  }

  function First(o: Option<nat>, pipe: nat, acts: bool): Option<nat> { if o.None? && acts then Some(pipe) else o }

  lemma CreditAfterIs(u: Setup, r: Request, ref: A.TicketRef, c: Credit, pipe: nat)
    requires Trusted(u, r, pipe)
    ensures var mails := Mails(PortsOf(u, pipe), r, ref);
            && CreditAfter(u, r, ref, c, pipe, 4) == Credit(First(c.ticket, pipe, true), c.mail, c.notice)
            && CreditAfter(u, r, ref, c, pipe, 5)
               == Credit(First(c.ticket, pipe, true), First(c.mail, pipe, mails), c.notice)
            && CreditAfter(u, r, ref, c, pipe, 6)
               == Credit(First(c.ticket, pipe, true), First(c.mail, pipe, mails), First(c.notice, pipe, true))
  {
    assert CreditAfter(u, r, ref, c, pipe, 1) == c;
    assert CreditAfter(u, r, ref, c, pipe, 2) == c;
    assert CreditAfter(u, r, ref, c, pipe, 3) == c;
  }

  /** `x` gets as far as `k` nodes, then `y` goes on to the notification. */
  lemma SwitchAfter(u: Setup, events: seq<Event>, id: string, x: nat, k: nat, y: nat, a: nat, b: nat)
    returns (longer: seq<Event>)
    requires Sourced(u) && Trusted(u, u.source(id), x) && Trusted(u, u.source(id), y) && k <= 6
    requires OnlyTwo(events, a, b) && (x == a || x == b) && (y == a || y == b)
    ensures events <= longer && OnlyTwo(longer, a, b)
    ensures RefIn(Run(u, longer).world, id) == RefIn(Run(u, events).world, id)
    ensures var r, ref := u.source(id), RefIn(Run(u, events).world, id);
            CreditOf(u, longer, id)
            == CreditAfter(u, r, ref, CreditAfter(u, r, ref, CreditOf(u, events, id), x, k), y, 6)
  {
    var first := DriveNodes(u, events, id, x, k, a, b);
    longer := DriveNodes(u, first, id, y, 6, a, b);
  }

  lemma NoTicketNoCredit(u: Setup, events: seq<Event>, id: string)
    requires Sourced(u) && !HasTicket(Run(u, events).world, id)
    ensures CreditOf(u, events, id) == Credit(None, None, None)
  {
    EveryHistoryTallies(u, events, id);
    assert EffectsOf(Run(u, events).world, id).ticket.None?;
  }

  /** Pipelines that are not interchangeable can be told apart: from any history that has not made the request's ticket
      yet there is one more switch after which its effects are no single run of either. */
  lemma DisagreementBreaks(u: Setup, events: seq<Event>, id: string, a: nat, b: nat) returns (longer: seq<Event>)
    requires Sourced(u) && OnlyTwo(events, a, b) && !HasTicket(Run(u, events).world, id)
    requires !Interchangeable(u, u.source(id), RefIn(Run(u, events).world, id), a, b)
    ensures events <= longer && OnlyTwo(longer, a, b)
    ensures RefIn(Run(u, longer).world, id) == RefIn(Run(u, events).world, id)
    ensures !IsRunOfEither(u, longer, id, a, b)
  {
    var r, ref := u.source(id), RefIn(Run(u, events).world, id);
    var none := Credit(None, None, None);
    NoTicketNoCredit(u, events, id);
    CreditAfterIs(u, r, ref, none, a);
    CreditAfterIs(u, r, ref, none, b);
    CreditAfterIs(u, r, ref, CreditAfter(u, r, ref, none, a, 4), b);
    CreditAfterIs(u, r, ref, CreditAfter(u, r, ref, none, a, 5), b);
    CreditAfterIs(u, r, ref, CreditAfter(u, r, ref, none, b, 5), a);
    if !SameTicket(u, r, a, b) {
      longer := SwitchAfter(u, events, id, a, 4, b, a, b);
    } else if Mails(PortsOf(u, a), r, ref) {
      longer := SwitchAfter(u, events, id, a, 5, b, a, b);
    } else {
      longer := SwitchAfter(u, events, id, b, 5, a, a, b);
    }
    RunOfOnePipelineExactlyWhen(u, longer, id, a);
    RunOfOnePipelineExactlyWhen(u, longer, id, b);
  }

  /** Whatever happens next, as long as the ticket number the request would get stays the same. */
  ghost predicate SafeFrom(u: Setup, events: seq<Event>, id: string, a: nat, b: nat) {
    forall longer: seq<Event> ::
      events <= longer && OnlyTwo(longer, a, b) && RefIn(Run(u, longer).world, id) == RefIn(Run(u, events).world, id)
      ==> IsRunOfEither(u, longer, id, a, b)
  }

  /** Effect equivalence under the breaker, exactly: a request that has no ticket yet is safe from every further
      switching between two pipelines if and only if they are interchangeable for it. */
  lemma SwitchingIsSafeExactlyWhen(u: Setup, events: seq<Event>, id: string, a: nat, b: nat)
    requires Sourced(u) && OnlyTwo(events, a, b) && !HasTicket(Run(u, events).world, id)
    ensures SafeFrom(u, events, id, a, b)
            <==> Interchangeable(u, u.source(id), RefIn(Run(u, events).world, id), a, b)
  {
    if Interchangeable(u, u.source(id), RefIn(Run(u, events).world, id), a, b) {
      forall longer: seq<Event> |
        events <= longer && OnlyTwo(longer, a, b) && RefIn(Run(u, longer).world, id) == RefIn(Run(u, events).world, id)
        ensures IsRunOfEither(u, longer, id, a, b)
      {
        SwitchingIsSafe(u, longer, id, a, b);
      }
    } else {
      var longer := DisagreementBreaks(u, events, id, a, b);
    }
  }
}
