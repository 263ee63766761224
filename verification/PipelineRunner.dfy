/** The pipeline as the program runs it: effect nodes calling adapters that change in place, and the streaming
    loop that yields one node after the other. */
module PipelineRunner {
  import opened RedisLists
  import opened PipelineGraph
  import opened Nodes
  import opened EffectPlan
  import A = Adapters

  lemma TicketNodeIs(p: Ports, s: State, w: World, ref: A.TicketRef, tickets: A.Tickets)
    requires s.classification.Some? && s.extracted.Some?
    requires (ref, tickets) == A.AfterCreate(
      w.tickets, p.describe(s.request, s.classification.value, s.extracted.value, s.knowledge), TicketKey(s.request.id))
    ensures RunNode(p, CreateTicket, s, w) == Some((s.(ticket := Some(ref)), w.(tickets := tickets)))
  {
  }

  class Runner {
    const ports: Ports
    const tickets: A.SandboxTickets
    const email: A.SandboxEmail
    const notifier: A.SandboxNotifier

    ghost function World(): World
      reads tickets, email, notifier
    {
      Nodes.World(tickets.State(), email.State(), notifier.State())
    }

    constructor (ports: Ports, tickets: A.SandboxTickets, email: A.SandboxEmail, notifier: A.SandboxNotifier)
      ensures this.ports == ports && this.tickets == tickets && this.email == email && this.notifier == notifier
    {
      this.ports, this.tickets, this.email, this.notifier := ports, tickets, email, notifier;
    }

    /** `None`: a required input is missing, nothing was called. */
    method CreateTicketNode(s: State) returns (r: Option<State>)
      modifies tickets
      ensures r.None? <==> s.classification.None? || s.extracted.None?
      ensures r.None? ==> World() == old(World())
      ensures r.Some? ==> RunNode(ports, CreateTicket, s, old(World())) == Some((r.value, World()))
    {
      if s.classification.None? || s.extracted.None? {
        return None;
      }
      var request := ports.describe(s.request, s.classification.value, s.extracted.value, s.knowledge);
      var ref := tickets.CreateTicket(request, TicketKey(s.request.id));
      TicketNodeIs(ports, s, old(World()), ref, tickets.State());
      return Some(s.(ticket := Some(ref)));
    }

    method DraftReplyNode(s: State) returns (r: Option<State>)
      modifies email
      ensures r.None? <==> s.extracted.None? || s.ticket.None?
      ensures r.None? ==> World() == old(World())
      ensures r.Some? ==> RunNode(ports, DraftReply, s, old(World())) == Some((r.value, World()))
    {
      if s.extracted.None? || s.ticket.None? {
        return None;
      }
      var e := s.extracted.value;
      var body := ports.draft(e, s.ticket.value, s.knowledge);
      var ok := ports.gate(body, e.email);
      var sent, held := false, false;
      if e.email != "" && ok {
        email.Send(A.Email(e.email, ports.headline(e), body), ReplyKey(s.request.id));
        sent := true;
      } else if !ok {
        held := true;
      }
      return Some(s.(reply := Some(Reply(body, sent, held))));
    }

    method NotifyNode(s: State) returns (r: Option<State>)
      modifies notifier
      ensures r.None? <==> s.classification.None? || s.extracted.None? || s.ticket.None?
      ensures r.None? ==> World() == old(World())
      ensures r.Some? ==> RunNode(ports, Notify, s, old(World())) == Some((r.value, World()))
    {
      if s.classification.None? || s.extracted.None? || s.ticket.None? {
        return None;
      }
      var message := ports.announce(s.classification.value, s.extracted.value, s.ticket.value);
      notifier.Notify(message, NoticeKey(s.request.id));
      return Some(s.(notified := true));
    }

    method RunOne(n: Node, s: State) returns (r: Option<State>)
      modifies tickets, email, notifier
      ensures r.None? ==> RunNode(ports, n, s, old(World())).None? && World() == old(World())
      ensures r.Some? ==> RunNode(ports, n, s, old(World())) == Some((r.value, World()))
    {
      if n == CreateTicket {
        r := CreateTicketNode(s);
      } else if n == DraftReply {
        r := DraftReplyNode(s);
      } else if n == Notify {
        r := NotifyNode(s);
      } else {
        var pure := RunNode(ports, n, s, Nodes.World(A.Tickets(0, map[], []), A.Mail({}, []), A.Notices({}, [])));
        r := if pure.Some? then Some(pure.value.0) else None;
      }
    }

    /** Run and merge the next node; a drive that ended or whose node failed stays put. */
    method Step(d: Drive) returns (d1: Drive)
      modifies tickets, email, notifier
      ensures (d1, World()) == Advance(ports, d, old(World()))
    {
      d1 := d;
      if d.next.Some? {
        var s := RunOne(d.next.value, d.state);
        if s.Some? {
          d1 := Drive(d.done + 1, s.value, Successor(d.next.value, ToReview(ports, s.value)));
        }
      }
    }

    /** Stream the whole pipeline for a request that has no effects yet: it never fails, ends where the plan
        ends, and does exactly the planned effects. */
    method Run(r: Request) returns (final: State)
      requires Consistent(ports, r, World(), 0)
      modifies tickets, email, notifier
      ensures final == StateAfter(ports, r, RefIn(old(World()), r.id), Length(ports, r))
      ensures EffectsOf(World(), r.id) == EffectsAfter(ports, r, RefIn(old(World()), r.id), Length(ports, r))
    {
      ghost var w := World();
      var d := StartDrive(r);
      ghost var k := 0;
      while d.next.Some?
        invariant k <= Length(ports, r) && Arrived(ports, r, w, k, d, World())
        decreases Length(ports, r) - k
      {
        NextKnown(ports, r, RefIn(w, r.id), k);
        ArriveNext(ports, r, w, k, d, World());
        d := Step(d);
        k := k + 1;
      }
      NextKnown(ports, r, RefIn(w, r.id), k);
      final := d.state;
    }
  }

  lemma NextKnown(p: Ports, r: Request, ref: A.TicketRef, k: nat)
    requires k <= Length(p, r)
    ensures DriveAfter(p, r, ref, k).next.Some? <==> k < Length(p, r)
  {
  }
}
