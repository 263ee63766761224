/** The fixed pipeline graph: which node runs after which. */
module PipelineGraph {
  import opened RedisLists

  datatype Node =
    | Classify | Extract | Retrieve | CreateTicket | DraftReply | Notify | Persist | GenerateReport
    | HumanReview

  /** The edge out of START. */
  const ENTRY := Classify

  /** The node after `n`; `review` is the verdict of the conditional edge behind the classifier. */
  function Successor(n: Node, review: bool): Option<Node> {
    match n
    case Classify => if review then Some(HumanReview) else Some(Extract)
    case Extract => Some(Retrieve)
    case Retrieve => Some(CreateTicket)
    case CreateTicket => Some(DraftReply)
    case DraftReply => Some(Notify)
    case Notify => Some(Persist)
    case Persist => Some(GenerateReport)
    case GenerateReport => None
    case HumanReview => None
  }

  predicate Terminal(n: Node) { n.GenerateReport? || n.HumanReview? }

  /** The node whose edge leads to `n`. */
  function Predecessor(n: Node): Option<Node> {
    match n
    case Classify => None
    case Extract => Some(Classify)
    case Retrieve => Some(Extract)
    case CreateTicket => Some(Retrieve)
    case DraftReply => Some(CreateTicket)
    case Notify => Some(DraftReply)
    case Persist => Some(Notify)
    case GenerateReport => Some(Persist)
    case HumanReview => Some(Classify)
  }

  /** Position on the main path; the review branch leaves it right after the classifier. */
  function Rank(n: Node): nat {
    match Predecessor(n)
    case None => 0
    case Some(Classify) => 1
    case Some(Extract) => 2
    case Some(Retrieve) => 3
    case Some(CreateTicket) => 4
    case Some(DraftReply) => 5
    case Some(Notify) => 6
    case Some(_) => 7
  }

  /** The nodes of a run, given the classifier's verdict. */
  predicate OnPath(n: Node, review: bool) { n.Classify? || n.HumanReview? == review }

  function PathFrom(n: Node, review: bool): (path: seq<Node>)
    ensures forall k :: 0 <= k < |path| ==> path[k].Classify? || Rank(path[k]) >= Rank(n)
    decreases 8 - Rank(n)
  {
    var next := Successor(n, review);
    [n] + (if next.Some? then PathFrom(next.value, review) else [])
  }

  /** The two paths through the graph, node by node. */
  lemma PathsAre()
    ensures PathFrom(ENTRY, true) == [Classify, HumanReview]
    ensures PathFrom(ENTRY, false)
            == [Classify, Extract, Retrieve, CreateTicket, DraftReply, Notify, Persist, GenerateReport]
  {
    assert PathFrom(HumanReview, true) == [HumanReview];
    assert PathFrom(GenerateReport, false) == [GenerateReport];
    assert PathFrom(Persist, false) == [Persist, GenerateReport];
    assert PathFrom(Notify, false) == [Notify, Persist, GenerateReport];
    assert PathFrom(DraftReply, false) == [DraftReply, Notify, Persist, GenerateReport];
    assert PathFrom(CreateTicket, false) == [CreateTicket, DraftReply, Notify, Persist, GenerateReport];
    assert PathFrom(Retrieve, false) == [Retrieve, CreateTicket, DraftReply, Notify, Persist, GenerateReport];
    assert PathFrom(Extract, false)
        == [Extract, Retrieve, CreateTicket, DraftReply, Notify, Persist, GenerateReport];
  }

  predicate EntryDone(nodes: set<Node>, n: Node) {
    Predecessor(n).Some? ==> Predecessor(n).value in nodes
  }

  /** What interrupted runs can have completed: each node only after the one before it, and never both ends. */
  predicate PathClosed(nodes: set<Node>) {
    && (Extract in nodes ==> Classify in nodes)
    && (Retrieve in nodes ==> Extract in nodes)
    && (CreateTicket in nodes ==> Retrieve in nodes)
    && (DraftReply in nodes ==> CreateTicket in nodes)
    && (Notify in nodes ==> DraftReply in nodes)
    && (Persist in nodes ==> Notify in nodes)
    && (GenerateReport in nodes ==> Persist in nodes)
    && (HumanReview in nodes ==> Classify in nodes)
    && !(GenerateReport in nodes && HumanReview in nodes)
  }

  /** The predecessor is the only way in, and every edge leads one rank up: a drive runs each node at most once. */
  lemma EdgesClimb(n: Node, review: bool)
    ensures Successor(n, review).None? <==> Terminal(n)
    ensures Successor(n, review).Some? ==>
              Predecessor(Successor(n, review).value) == Some(n) && Rank(Successor(n, review).value) == Rank(n) + 1
  {
  }

  /** A closed set of nodes is the main path up to some rank, with the review node as the only possible extra. */
  lemma ClosedIsPrefix(nodes: set<Node>, m: Node, n: Node)
    requires PathClosed(nodes) && n in nodes && !m.HumanReview? && Rank(m) < Rank(n)
    ensures m in nodes
  {
  }
}
