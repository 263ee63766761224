/** The pipeline nodes: each reads the state built so far, may call one adapter, and adds its own fields. */
module Nodes {
  import opened RedisLists
  import opened PipelineGraph
  import A = Adapters

  datatype Request = Request(id: string, subject: string, body: string)

  datatype Classification = Classification(requestType: string, priority: string, confidence: real, reason: string)

  datatype Extracted = Extracted(name: string, email: string, subject: string, summary: string)

  datatype Reply = Reply(body: string, sent: bool, held: bool)

  datatype Record = Record(classification: Classification, extracted: Extracted, ticket: Option<A.TicketRef>,
                           replySent: bool, replyHeld: bool, notified: bool, knowledge: seq<string>)

  datatype RunStatus = InProgress | Completed | NeedsReview

  datatype State = State(
    request: Request,
    classification: Option<Classification>,
    extracted: Option<Extracted>,
    knowledge: seq<string>,
    ticket: Option<A.TicketRef>,
    reply: Option<Reply>,
    notified: bool,
    record: Option<Record>,
    report: Option<string>,
    status: RunStatus,
    reviewReason: Option<string>)

  /** What lies outside: the model and the knowledge base as functions of their input, and how messages are
      worded.  `parse` is the classifier's JSON reading; `gate` the output guardrail. */
  datatype Ports = Ports(
    threshold: real,
    classify: Request -> string,
    parse: string -> Option<Classification>,
    extract: Request -> Extracted,
    search: (Classification, Extracted) -> seq<string>,
    describe: (Request, Classification, Extracted, seq<string>) -> A.TicketRequest,
    draft: (Extracted, A.TicketRef, seq<string>) -> string,
    gate: (string, string) -> bool,
    headline: Extracted -> string,
    announce: (Classification, Extracted, A.TicketRef) -> A.Notice,
    report: Option<Record> -> string,
    explain: Option<Classification> -> string)

  datatype World = World(tickets: A.Tickets, mail: A.Mail, notices: A.Notices)

  function Fresh(r: Request): State {
    State(r, None, None, [], None, None, false, None, None, InProgress, None)
  }

  function TicketKey(id: string): string { "req-" + id }

  function ReplyKey(id: string): string { "req-" + id + "-reply" }

  function NoticeKey(id: string): string { "req-" + id + "-notify" }

  /** Output that cannot be read becomes a verdict of no confidence. */
  function Verdict(p: Ports, r: Request): Classification {
    var read := p.parse(p.classify(r));
    if read.Some? then read.value
    else Classification("other", "medium", 0.0, "classifier output could not be parsed")
  }

  predicate ToReview(p: Ports, s: State) {
    s.classification.None? || s.classification.value.confidence < p.threshold
  }

  /** Run node `n`; `None` is the pipeline-invariant failure of a node whose input is missing. */
  function RunNode(p: Ports, n: Node, s: State, w: World): Option<(State, World)> {
    match n
    case Classify => Some((s.(classification := Some(Verdict(p, s.request))), w))
    case Extract => Some((s.(extracted := Some(p.extract(s.request))), w))
    case Retrieve =>
      if s.classification.None? || s.extracted.None? then None
      else Some((s.(knowledge := p.search(s.classification.value, s.extracted.value)), w))
    case CreateTicket => CreateTicketNode(p, s, w)
    case DraftReply => ReplyNode(p, s, w)
    case Notify => NotifyNode(p, s, w)
    case Persist =>
      if s.classification.None? || s.extracted.None? then None
      else Some((s.(record := Some(Record(s.classification.value, s.extracted.value, s.ticket,
                                          s.reply.Some? && s.reply.value.sent, s.reply.Some? && s.reply.value.held,
                                          s.notified, s.knowledge))), w))
    case GenerateReport =>
      Some((s.(report := Some(p.report(s.record)), status := Completed), w))
    case HumanReview =>
      Some((s.(status := NeedsReview, reviewReason := Some(p.explain(s.classification))), w))
  }

  function CreateTicketNode(p: Ports, s: State, w: World): Option<(State, World)> {
    if s.classification.None? || s.extracted.None? then None
    else
      var ticket := p.describe(s.request, s.classification.value, s.extracted.value, s.knowledge);
      var (ref, tickets) := A.AfterCreate(w.tickets, ticket, TicketKey(s.request.id));
      Some((s.(ticket := Some(ref)), w.(tickets := tickets)))
  }

  /** The draft leaves only when there is a recipient and the gate passes it for that recipient. */
  function ReplyNode(p: Ports, s: State, w: World): Option<(State, World)> {
    if s.extracted.None? || s.ticket.None? then None
    else
      var e := s.extracted.value;
      var body := p.draft(e, s.ticket.value, s.knowledge);
      var ok := p.gate(body, e.email);
      if e.email != "" && ok then
        Some((s.(reply := Some(Reply(body, true, false))),
              w.(mail := A.AfterSend(w.mail, A.Email(e.email, p.headline(e), body), ReplyKey(s.request.id)))))
      else Some((s.(reply := Some(Reply(body, false, !ok))), w))
  }

  function NotifyNode(p: Ports, s: State, w: World): Option<(State, World)> {
    if s.classification.None? || s.extracted.None? || s.ticket.None? then None
    else
      var notice := p.announce(s.classification.value, s.extracted.value, s.ticket.value);
      Some((s.(notified := true), w.(notices := A.AfterNotify(w.notices, notice, NoticeKey(s.request.id)))))
  }

  /** A drive: the nodes completed, the state they built, and the node to run next. */
  datatype Drive = Drive(done: nat, state: State, next: Option<Node>)

  function StartDrive(r: Request): Drive { Drive(0, Fresh(r), Some(ENTRY)) }

  /** One more node of a drive; a drive that failed or ended stays put. */
  function Advance(p: Ports, d: Drive, w: World): (Drive, World) {
    if d.next.None? then (d, w)
    else
      match RunNode(p, d.next.value, d.state, w)
      case None => (d, w)
      case Some((s, w1)) => (Drive(d.done + 1, s, Successor(d.next.value, ToReview(p, s))), w1)
  }

  /** An uninterrupted run of the first `k` nodes. */
  function RunAlone(p: Ports, r: Request, w: World, k: nat): (Drive, World) {
    if k == 0 then (StartDrive(r), w)
    else
      var (d, w1) := RunAlone(p, r, w, k - 1);
      Advance(p, d, w1)
  }
}
