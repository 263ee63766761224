/** What a run of one request is meant to do: the state and the effects after each node, written out from the
    ports alone, and that an uninterrupted run follows this plan exactly. */
module EffectPlan {
  import opened RedisLists
  import opened PipelineGraph
  import opened Nodes
  import A = Adapters

  predicate Reviewed(p: Ports, r: Request) { Verdict(p, r).confidence < p.threshold }

  function Length(p: Ports, r: Request): nat { if Reviewed(p, r) then 2 else 8 }

  function Knowledge(p: Ports, r: Request): seq<string> { p.search(Verdict(p, r), p.extract(r)) }

  function Ticket(p: Ports, r: Request): A.TicketRequest {
    p.describe(r, Verdict(p, r), p.extract(r), Knowledge(p, r))
  }

  function Body(p: Ports, r: Request, ref: A.TicketRef): string { p.draft(p.extract(r), ref, Knowledge(p, r)) }

  predicate Mails(p: Ports, r: Request, ref: A.TicketRef) {
    p.extract(r).email != "" && p.gate(Body(p, r, ref), p.extract(r).email)
  }

  function ReplyFor(p: Ports, r: Request, ref: A.TicketRef): Reply {
    if Mails(p, r, ref) then Reply(Body(p, r, ref), true, false)
    else Reply(Body(p, r, ref), false, !p.gate(Body(p, r, ref), p.extract(r).email))
  }

  function RecordFor(p: Ports, r: Request, ref: A.TicketRef): Record {
    Record(Verdict(p, r), p.extract(r), Some(ref), Mails(p, r, ref), ReplyFor(p, r, ref).held, true, Knowledge(p, r))
  }

  /** The state after `k` nodes, given the ticket the request got. */
  function StateAfter(p: Ports, r: Request, ref: A.TicketRef, k: nat): State {
    var c := Verdict(p, r);
    if k == 0 then Fresh(r)
    else if Reviewed(p, r) then
      var s := Fresh(r).(classification := Some(c));
      if k == 1 then s else s.(status := NeedsReview, reviewReason := Some(p.explain(Some(c))))
    else
      State(r, Some(c),
            if k >= 2 then Some(p.extract(r)) else None,
            if k >= 3 then Knowledge(p, r) else [],
            if k >= 4 then Some(ref) else None,
            if k >= 5 then Some(ReplyFor(p, r, ref)) else None,
            k >= 6,
            if k >= 7 then Some(RecordFor(p, r, ref)) else None,
            if k >= 8 then Some(p.report(Some(RecordFor(p, r, ref)))) else None,
            if k >= 8 then Completed else InProgress,
            None)
  }

  function NextAfter(p: Ports, r: Request, k: nat): Option<Node> {
    if k == 0 then Some(Classify)
    else if Reviewed(p, r) then if k == 1 then Some(HumanReview) else None
    else if k == 1 then Some(Extract)
    else if k == 2 then Some(Retrieve)
    else if k == 3 then Some(CreateTicket)
    else if k == 4 then Some(DraftReply)
    else if k == 5 then Some(Notify)
    else if k == 6 then Some(Persist)
    else if k == 7 then Some(GenerateReport)
    else None
  }

  /** One request's share of the adapters. */
  datatype Effects = Effects(
    ticket: Option<A.TicketRef>, created: seq<A.TicketRequest>,
    mailed: bool, mails: seq<A.Email>,
    noted: bool, notices: seq<A.Notice>)

  function EffectsOf(w: World, id: string): Effects {
    Effects(
      if TicketKey(id) in w.tickets.byKey then Some(w.tickets.byKey[TicketKey(id)]) else None,
      A.Under(w.tickets.created, TicketKey(id)),
      ReplyKey(id) in w.mail.byKey, A.Under(w.mail.outbox, ReplyKey(id)),
      NoticeKey(id) in w.notices.seen, A.Under(w.notices.sent, NoticeKey(id)))
  }

  function EffectsAfter(p: Ports, r: Request, ref: A.TicketRef, k: nat): Effects {
    var acted := !Reviewed(p, r);
    var mailed := acted && k >= 5 && Mails(p, r, ref);
    Effects(
      if acted && k >= 4 then Some(ref) else None,
      if acted && k >= 4 then [Ticket(p, r)] else [],
      mailed,
      if mailed then [A.Email(p.extract(r).email, p.headline(p.extract(r)), Body(p, r, ref))] else [],
      acted && k >= 6,
      if acted && k >= 6 then [p.announce(Verdict(p, r), p.extract(r), ref)] else [])
  }

  /** What may be said of effects at all: none unless the classification met the threshold, at most one each,
      and a mail only to the extracted address with a text the gate passes for that address. */
  predicate Gated(p: Ports, r: Request, e: Effects) {
    && |e.created| <= 1 && |e.mails| <= 1 && |e.notices| <= 1
    && (e.created != [] || e.mails != [] || e.notices != [] ==> Verdict(p, r).confidence >= p.threshold)
    && (e.mails != [] ==> e.mails[0].to == p.extract(r).email != "" && p.gate(e.mails[0].body, e.mails[0].to))
  }

  lemma PlanIsGated(p: Ports, r: Request, ref: A.TicketRef, k: nat)
    ensures Gated(p, r, EffectsAfter(p, r, ref, k))
  {
  }

  /** The ticket a request has, or the one the next creation would make. */
  function RefIn(w: World, id: string): A.TicketRef {
    if TicketKey(id) in w.tickets.byKey then w.tickets.byKey[TicketKey(id)] else A.TicketRef(w.tickets.counter + 1)
  }

  lemma EffectsIgnoreLaterTicket(p: Ports, r: Request, a: A.TicketRef, b: A.TicketRef, k: nat)
    requires k <= 3 || Reviewed(p, r)
    ensures EffectsAfter(p, r, a, k) == EffectsAfter(p, r, b, k) && StateAfter(p, r, a, k) == StateAfter(p, r, b, k)
  {
  }

  /** The ticket `ref` is the one this request has or would get now. */
  ghost predicate Consistent(p: Ports, r: Request, w: World, f: nat) {
    EffectsOf(w, r.id) == EffectsAfter(p, r, RefIn(w, r.id), f) && f <= Length(p, r)
  }

  function Furthest(f: nat, k: nat): nat { if f < k then k else f }

  lemma TicketOnPlan(p: Ports, r: Request, w: World, f: nat)
    requires Consistent(p, r, w, f) && f >= 3 && !Reviewed(p, r)
    ensures var step := RunNode(p, CreateTicket, StateAfter(p, r, RefIn(w, r.id), 3), w);
            && step.Some? && step.value.0 == StateAfter(p, r, RefIn(w, r.id), 4)
            && RefIn(step.value.1, r.id) == RefIn(w, r.id) && Consistent(p, r, step.value.1, Furthest(f, 4))
  {
    A.UnderExtended(w.tickets.created, A.Entry(TicketKey(r.id), Ticket(p, r)), TicketKey(r.id));
  }

  lemma SendOnPlan(p: Ports, r: Request, w: World, f: nat, m: A.Mail)
    requires Consistent(p, r, w, f) && f >= 4 && !Reviewed(p, r) && Mails(p, r, RefIn(w, r.id))
    requires var e := p.extract(r);
             m == A.AfterSend(w.mail, A.Email(e.email, p.headline(e), Body(p, r, RefIn(w, r.id))), ReplyKey(r.id))
    ensures EffectsOf(w.(mail := m), r.id) == EffectsAfter(p, r, RefIn(w, r.id), Furthest(f, 5))
  {
    var e := p.extract(r);
    var mail := A.Email(e.email, p.headline(e), Body(p, r, RefIn(w, r.id)));
    A.UnderExtended(w.mail.outbox, A.Entry(ReplyKey(r.id), mail), ReplyKey(r.id));
  }

  lemma ReplyOnPlan(p: Ports, r: Request, w: World, f: nat)
    requires Consistent(p, r, w, f) && f >= 4 && !Reviewed(p, r)
    ensures var step := RunNode(p, DraftReply, StateAfter(p, r, RefIn(w, r.id), 4), w);
            && step.Some? && step.value.0 == StateAfter(p, r, RefIn(w, r.id), 5)
            && RefIn(step.value.1, r.id) == RefIn(w, r.id) && Consistent(p, r, step.value.1, Furthest(f, 5))
  {
    if Mails(p, r, RefIn(w, r.id)) {
      var step := RunNode(p, DraftReply, StateAfter(p, r, RefIn(w, r.id), 4), w);
      SendOnPlan(p, r, w, f, step.value.1.mail);
    } else {
      assert EffectsAfter(p, r, RefIn(w, r.id), Furthest(f, 5)) == EffectsAfter(p, r, RefIn(w, r.id), f);
    }
  }

  lemma NoticeOnPlan(p: Ports, r: Request, w: World, f: nat)
    requires Consistent(p, r, w, f) && f >= 5 && !Reviewed(p, r)
    ensures var step := RunNode(p, Notify, StateAfter(p, r, RefIn(w, r.id), 5), w);
            && step.Some? && step.value.0 == StateAfter(p, r, RefIn(w, r.id), 6)
            && RefIn(step.value.1, r.id) == RefIn(w, r.id) && Consistent(p, r, step.value.1, Furthest(f, 6))
  {
    var notice := p.announce(Verdict(p, r), p.extract(r), RefIn(w, r.id));
    A.UnderExtended(w.notices.sent, A.Entry(NoticeKey(r.id), notice), NoticeKey(r.id));
  }

  /** The nodes without effects. */
  lemma QuietOnPlan(p: Ports, r: Request, w: World, k: nat, ref: A.TicketRef)
    requires k < Length(p, r) && (Reviewed(p, r) || k < 3 || k > 5)
    ensures NextAfter(p, r, k).Some?
    ensures RunNode(p, NextAfter(p, r, k).value, StateAfter(p, r, ref, k), w)
            == Some((StateAfter(p, r, ref, k + 1), w))
    ensures EffectsAfter(p, r, ref, k + 1) == EffectsAfter(p, r, ref, k)
  {
  }

  lemma NextOnPlan(p: Ports, r: Request, k: nat, ref: A.TicketRef)
    requires k < Length(p, r)
    ensures NextAfter(p, r, k).Some?
    ensures Successor(NextAfter(p, r, k).value, ToReview(p, StateAfter(p, r, ref, k + 1))) == NextAfter(p, r, k + 1)
  {
  }

  /** One node of a drive that is on plan, in a world where other drives of the same request may be further:
      the node succeeds, the drive stays on plan, and the effects are those of the furthest drive. */
  lemma NodeOnPlan(p: Ports, r: Request, w: World, k: nat, f: nat)
    requires Consistent(p, r, w, f) && k < Length(p, r) && k <= f
    ensures var step := RunNode(p, NextAfter(p, r, k).value, StateAfter(p, r, RefIn(w, r.id), k), w);
            && NextAfter(p, r, k).Some? && step.Some?
            && step.value.0 == StateAfter(p, r, RefIn(w, r.id), k + 1)
            && RefIn(step.value.1, r.id) == RefIn(w, r.id)
            && Consistent(p, r, step.value.1, Furthest(f, k + 1))
  {
    if Reviewed(p, r) || k < 3 || k > 5 {
      QuietOnPlan(p, r, w, k, RefIn(w, r.id));
    } else if k == 3 {
      TicketOnPlan(p, r, w, f);
    } else if k == 4 {
      ReplyOnPlan(p, r, w, f);
    } else {
      NoticeOnPlan(p, r, w, f);
    }
  }

  /** The drive of `r` after `k` nodes. */
  function DriveAfter(p: Ports, r: Request, ref: A.TicketRef, k: nat): Drive {
    Drive(k, StateAfter(p, r, ref, k), NextAfter(p, r, k))
  }

  lemma AdvanceOnPlan(p: Ports, r: Request, w: World, k: nat, f: nat)
    requires Consistent(p, r, w, f) && k < Length(p, r) && k <= f
    ensures var (d, w1) := Advance(p, DriveAfter(p, r, RefIn(w, r.id), k), w);
            && d == DriveAfter(p, r, RefIn(w, r.id), k + 1)
            && RefIn(w1, r.id) == RefIn(w, r.id)
            && Consistent(p, r, w1, Furthest(f, k + 1))
  {
    NodeOnPlan(p, r, w, k, f);
    NextOnPlan(p, r, k, RefIn(w, r.id));
  }

  /** `k` nodes on from a world `w` in which the request had no effects. */
  ghost predicate Arrived(p: Ports, r: Request, w: World, k: nat, d: Drive, w1: World) {
    d == DriveAfter(p, r, RefIn(w, r.id), k) && RefIn(w1, r.id) == RefIn(w, r.id) && Consistent(p, r, w1, k)
  }

  lemma ArriveNext(p: Ports, r: Request, w: World, k: nat, d: Drive, w1: World)
    requires Arrived(p, r, w, k, d, w1) && k < Length(p, r)
    ensures Arrived(p, r, w, k + 1, Advance(p, d, w1).0, Advance(p, d, w1).1)
  {
    AdvanceOnPlan(p, r, w1, k, k);
  }

  /** An uninterrupted run, started where the request has no effects yet, follows the plan. */
  lemma {:induction false} RunAloneOnPlan(p: Ports, r: Request, w: World, k: nat)
    requires Consistent(p, r, w, 0) && k <= Length(p, r)
    ensures Arrived(p, r, w, k, RunAlone(p, r, w, k).0, RunAlone(p, r, w, k).1)
  {
    if k > 0 {
      RunAloneOnPlan(p, r, w, k - 1);
      ArriveNext(p, r, w, k - 1, RunAlone(p, r, w, k - 1).0, RunAlone(p, r, w, k - 1).1);
    }
  }
}
