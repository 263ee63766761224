/** The sandbox adapters: every effect is keyed, and a key that was seen before has no further effect. */
module Adapters {
  import opened RedisLists

  datatype TicketRequest = TicketRequest(summary: string, description: string, priority: string, topic: string)

  type Positive = n: int | n >= 1 witness 1

  /** Tickets are numbered from one. */
  datatype TicketRef = TicketRef(number: Positive)

  datatype Email = Email(to: string, subject: string, body: string)

  datatype Notice = Notice(text: string)

  /** An effect, remembered with the key it was made under. */
  datatype Entry<T> = Entry(key: string, value: T)

  datatype Tickets = Tickets(counter: nat, byKey: map<string, TicketRef>, created: seq<Entry<TicketRequest>>)

  datatype Mail = Mail(byKey: set<string>, outbox: seq<Entry<Email>>)

  datatype Notices = Notices(seen: set<string>, sent: seq<Entry<Notice>>)

  function AfterCreate(t: Tickets, ticket: TicketRequest, key: string): (TicketRef, Tickets) {
    if key in t.byKey then (t.byKey[key], t)
    else
      var ref := TicketRef(t.counter + 1);
      (ref, Tickets(t.counter + 1, t.byKey[key := ref], t.created + [Entry(key, ticket)]))
  }

  function AfterSend(m: Mail, message: Email, key: string): Mail {
    if key in m.byKey then m else Mail(m.byKey + {key}, m.outbox + [Entry(key, message)])
  }

  function AfterNotify(n: Notices, message: Notice, key: string): Notices {
    if key in n.seen then n else Notices(n.seen + {key}, n.sent + [Entry(key, message)])
  }

  /** Each creation has the ticket with its own number. */
  ghost predicate CreatedHasTicket(t: Tickets) {
    forall i :: 0 <= i < |t.created| ==>
      t.created[i].key in t.byKey && t.byKey[t.created[i].key].number == i + 1
  }

  /** Each key's ticket is one that was created under it. */
  ghost predicate TicketWasCreated(t: Tickets) {
    forall k :: k in t.byKey ==> t.byKey[k].number <= |t.created| && t.created[t.byKey[k].number - 1].key == k
  }

  /** Tickets are numbered in the order they were created, and each key has the one created under it. */
  ghost predicate Numbered(t: Tickets) {
    |t.created| == t.counter && CreatedHasTicket(t) && TicketWasCreated(t)
  }

  lemma CreationsKept(t: Tickets, ref: TicketRef, ticket: TicketRequest, key: string, t1: Tickets)
    requires CreatedHasTicket(t) && key !in t.byKey && ref.number == |t.created| + 1
    requires t1.byKey == t.byKey[key := ref] && t1.created == t.created + [Entry(key, ticket)]
    ensures CreatedHasTicket(t1)
  {
    forall i | 0 <= i < |t1.created|
      ensures t1.created[i].key in t1.byKey && t1.byKey[t1.created[i].key].number == i + 1
    {
      if i < |t.created| {
        assert t1.created[i] == t.created[i];
      }
    }
  }

  lemma TicketsKept(t: Tickets, ref: TicketRef, ticket: TicketRequest, key: string, t1: Tickets)
    requires TicketWasCreated(t) && key !in t.byKey && ref.number == |t.created| + 1
    requires t1.byKey == t.byKey[key := ref] && t1.created == t.created + [Entry(key, ticket)]
    ensures TicketWasCreated(t1)
  {
    forall k | k in t1.byKey
      ensures t1.byKey[k].number <= |t1.created| && t1.created[t1.byKey[k].number - 1].key == k
    {
      if k != key {
        assert k in t.byKey && t1.byKey[k] == t.byKey[k];
      }
    }
  }

  lemma CreateKeepsNumbering(t: Tickets, ticket: TicketRequest, key: string)
    requires Numbered(t)
    ensures Numbered(AfterCreate(t, ticket, key).1)
  {
    if key !in t.byKey {
      var (ref, t1) := AfterCreate(t, ticket, key);
      CreationsKept(t, ref, ticket, key, t1);
      TicketsKept(t, ref, ticket, key, t1);
    }
  }

  /** No two keys ever share a ticket. */
  lemma TicketsDiffer(t: Tickets, a: string, b: string)
    requires Numbered(t) && a in t.byKey && b in t.byKey && a != b
    ensures t.byKey[a] != t.byKey[b]
  {
  }

  /** The effects made under `key`, oldest first. */
  function Under<T>(entries: seq<Entry<T>>, key: string): seq<T> {
    if entries == [] then []
    else
      var last := entries[|entries| - 1];
      Under(entries[..|entries| - 1], key) + (if last.key == key then [last.value] else [])
  }

  lemma UnderExtended<T>(entries: seq<Entry<T>>, e: Entry<T>, key: string)
    ensures Under(entries + [e], key) == Under(entries, key) + (if e.key == key then [e.value] else [])
  {
    assert (entries + [e])[..|entries|] == entries;
  }

  class SandboxTickets {
    var counter: nat
    var byKey: map<string, TicketRef>
    var created: seq<Entry<TicketRequest>>

    ghost function State(): Tickets
      reads this
    {
      Tickets(counter, byKey, created)
    }

    constructor ()
      ensures State() == Tickets(0, map[], [])
    {
      counter, byKey, created := 0, map[], [];
    }

    /** The same key always gets the same ticket, and only its first use creates one. */
    method CreateTicket(ticket: TicketRequest, key: string) returns (ref: TicketRef)
      modifies this
      ensures (ref, State()) == AfterCreate(old(State()), ticket, key)
      ensures key in byKey && byKey[key] == ref
      ensures Under(created, key) == Under(old(created), key) + (if key in old(byKey) then [] else [ticket])
      ensures forall k :: k in old(byKey) ==> k in byKey && byKey[k] == old(byKey)[k]
      ensures Numbered(old(State())) ==> Numbered(State())
    {
      if Numbered(State()) {
        CreateKeepsNumbering(State(), ticket, key);
      }
      if key in byKey {
        return byKey[key];
      }
      counter := counter + 1;
      ref := TicketRef(counter);
      byKey := byKey[key := ref];
      UnderExtended(created, Entry(key, ticket), key);
      created := created + [Entry(key, ticket)];
    }
  }

  class SandboxEmail {
    var byKey: set<string>
    var outbox: seq<Entry<Email>>

    ghost function State(): Mail
      reads this
    {
      Mail(byKey, outbox)
    }

    constructor ()
      ensures State() == Mail({}, [])
    {
      byKey, outbox := {}, [];
    }

    method Send(message: Email, key: string)
      modifies this
      ensures State() == AfterSend(old(State()), message, key)
      ensures Under(outbox, key) == Under(old(outbox), key) + (if key in old(byKey) then [] else [message])
    {
      if key in byKey {
        return;
      }
      byKey := byKey + {key};
      UnderExtended(outbox, Entry(key, message), key);
      outbox := outbox + [Entry(key, message)];
    }
  }

  class SandboxNotifier {
    var seen: set<string>
    var sent: seq<Entry<Notice>>

    ghost function State(): Notices
      reads this
    {
      Notices(seen, sent)
    }

    constructor ()
      ensures State() == Notices({}, [])
    {
      seen, sent := {}, [];
    }

    method Notify(message: Notice, key: string)
      modifies this
      ensures State() == AfterNotify(old(State()), message, key)
      ensures Under(sent, key) == Under(old(sent), key) + (if key in old(seen) then [] else [message])
    {
      if key in seen {
        return;
      }
      seen := seen + {key};
      UnderExtended(sent, Entry(key, message), key);
      sent := sent + [Entry(key, message)];
    }
  }
}
