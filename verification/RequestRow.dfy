/** What the database keeps of one request and what each transaction of the worker and of the retry endpoint
    does to it. */
module RequestRow {
  import opened RedisLists
  import opened PipelineGraph

  datatype Status = Queued | Running | Completed | NeedsReview | Failed

  /** A node's stored output. */
  datatype Output = Output(json: string)

  datatype Kind = Ticket | Reply | Notification | Report | Review

  datatype Artifact = Artifact(kind: Kind, payload: Output)

  datatype Note = NoError | Retrying(attempt: int, limit: int, text: string) | GaveUp(text: string)

  datatype Row = Row(
    status: Status,
    attempts: nat,
    steps: map<Node, Output>,
    artifacts: seq<Artifact>,
    error: Note)

  const SUBMITTED := Row(Queued, 0, map[], [], NoError)

  predicate Live(r: Row) { r.status.Queued? || r.status.Running? }

  predicate Settled(r: Row) { r.status.Completed? || r.status.NeedsReview? }

  predicate HasTerminalStep(r: Row) { GenerateReport in r.steps || HumanReview in r.steps }

  /** `_begin`: the attempt number to drive with, unless the request is already over. */
  function Begin(r: Row): (Option<nat>, Row) {
    if r.status.Completed? || r.status.Failed? || r.status.NeedsReview? then (None, r)
    else if HasTerminalStep(r) then
      (None, r.(status := if HumanReview in r.steps then NeedsReview else Completed))
    else (Some(r.attempts + 1), r.(status := Running, attempts := r.attempts + 1))
  }

  /** First write wins. */
  function SaveStep(r: Row, n: Node, output: Output): Row {
    if n in r.steps then r else r.(steps := r.steps[n := output])
  }

  /** The status carried by the state a drive ended with. */
  function FinalStatus(final: map<Node, Output>): Status {
    if GenerateReport in final then Completed else if HumanReview in final then NeedsReview else Running
  }

  function Produced(final: map<Node, Output>, n: Node, kind: Kind): seq<Artifact> {
    if n in final then [Artifact(kind, final[n])] else []
  }

  function ArtifactsOf(final: map<Node, Output>): seq<Artifact> {
    Produced(final, CreateTicket, Ticket) + Produced(final, DraftReply, Reply)
    + Produced(final, Notify, Notification) + Produced(final, GenerateReport, Report)
    + Produced(final, HumanReview, Review)
  }

  /** `finalize_run`: one transaction for all artifacts and the status. */
  function Finalize(r: Row, final: map<Node, Output>): Row {
    r.(artifacts := r.artifacts + ArtifactsOf(final), status := FinalStatus(final), error := NoError)
  }

  /** `_handle_failure`: whether the job goes back to the queue, and the row it leaves. */
  function Fail(maxAttempts: int, r: Row, attempts: nat, retryable: bool, text: string): (bool, Row) {
    if retryable && attempts < maxAttempts
    then (true, r.(status := Queued, error := Retrying(attempts, maxAttempts, text)))
    else (false, r.(status := Failed, error := GaveUp(text)))
  }

  /** The retry endpoint accepts only failed requests and gives them a fresh set of attempts. */
  function Retry(r: Row): Option<Row> {
    if r.status.Failed? then Some(r.(status := Queued, attempts := 0, error := NoError)) else None
  }

  /** Exactly the failed requests can be retried; unless a terminal checkpoint settles it, the next drive is
      attempt number one again, and nothing that was saved is lost. */
  lemma RetryStartsAfresh(r: Row)
    ensures Retry(r).Some? <==> r.status == Failed
    ensures Retry(r).Some? ==>
              var again := Retry(r).value;
              && Live(again) && again.steps == r.steps && again.artifacts == r.artifacts && again.error == NoError
              && (if HasTerminalStep(r) then Begin(again).0 == None && Settled(Begin(again).1)
                  else Begin(again).0 == Some(1))
  {
  }

  predicate OnePerKind(artifacts: seq<Artifact>) {
    forall i, j :: 0 <= i < j < |artifacts| ==> artifacts[i].kind != artifacts[j].kind
  }

  predicate HasKind(artifacts: seq<Artifact>, kind: Kind) {
    exists i :: 0 <= i < |artifacts| && artifacts[i].kind == kind
  }

  lemma NewKind(artifacts: seq<Artifact>, final: map<Node, Output>, n: Node, kind: Kind)
    requires OnePerKind(artifacts) && !HasKind(artifacts, kind)
    ensures OnePerKind(artifacts + Produced(final, n, kind))
    ensures forall other :: other != kind && !HasKind(artifacts, other)
                            ==> !HasKind(artifacts + Produced(final, n, kind), other)
  {
  }

  lemma FinalArtifactsDiffer(final: map<Node, Output>)
    ensures OnePerKind(ArtifactsOf(final))
  {
    var ticket := [] + Produced(final, CreateTicket, Ticket);
    NewKind([], final, CreateTicket, Ticket);
    var reply := ticket + Produced(final, DraftReply, Reply);
    NewKind(ticket, final, DraftReply, Reply);
    var notice := reply + Produced(final, Notify, Notification);
    NewKind(reply, final, Notify, Notification);
    var report := notice + Produced(final, GenerateReport, Report);
    NewKind(notice, final, GenerateReport, Report);
    NewKind(report, final, HumanReview, Review);
    assert ticket == Produced(final, CreateTicket, Ticket);
  }

  lemma CompletedArtifacts(final: map<Node, Output>)
    requires PathClosed(final.Keys) && GenerateReport in final
    ensures ArtifactsOf(final) == [Artifact(Ticket, final[CreateTicket]), Artifact(Reply, final[DraftReply]),
                                   Artifact(Notification, final[Notify]), Artifact(Report, final[GenerateReport])]
  {
    assert Persist in final && Notify in final && DraftReply in final && CreateTicket in final;
    assert HumanReview !in final;
  }

  /** One finalisation writes at most one artifact of each kind: a completed drive all four of them, a reviewed
      one the review. */
  lemma ArtifactsOncePerKind(final: map<Node, Output>)
    ensures OnePerKind(ArtifactsOf(final))
    ensures PathClosed(final.Keys) && GenerateReport in final ==>
              ArtifactsOf(final) == [Artifact(Ticket, final[CreateTicket]), Artifact(Reply, final[DraftReply]),
                                     Artifact(Notification, final[Notify]), Artifact(Report, final[GenerateReport])]
    ensures HumanReview in final ==> Artifact(Review, final[HumanReview]) in ArtifactsOf(final)
    ensures final.Keys == {Classify, HumanReview} ==> ArtifactsOf(final) == [Artifact(Review, final[HumanReview])]
  {
    FinalArtifactsDiffer(final);
    if PathClosed(final.Keys) && GenerateReport in final {
      CompletedArtifacts(final);
    }
    if HumanReview in final {
      var all := ArtifactsOf(final);
      assert all[|all| - 1] == Artifact(Review, final[HumanReview]);
    }
  }

  /** Two drives of one request at the same time break the terminal statuses: the failure handler of the
      second drive overwrites the outcome the first one committed. */
  lemma ConcurrentDrivesOverwriteCompleted(final: map<Node, Output>, maxAttempts: int, text: string)
    requires GenerateReport in final
    ensures var first := Begin(SUBMITTED);
            var second := Begin(first.1);
            && first.0 == Some(1) && second.0 == Some(2)
            && Finalize(second.1, final).status == Completed
            && Fail(maxAttempts, Finalize(second.1, final), 2, false, text).1.status == Failed
  {
  }

  /** Nothing may raise after the final commit: the failure handler would turn the settled request into a failed
      one that keeps its artifacts, until an operator's retry settles it from its checkpoint again. */
  lemma RaiseAfterFinalizeOverwritesOutcome(r: Row, final: map<Node, Output>, maxAttempts: int,
                                            attempts: nat, text: string)
    requires HasTerminalStep(r)
    ensures var done := Finalize(r, final);
            var failed := Fail(maxAttempts, done, attempts, false, text).1;
            && failed.status == Failed && failed.artifacts == done.artifacts
            && Retry(failed).Some?
            && Begin(Retry(failed).value).0 == None
            && Settled(Begin(Retry(failed).value).1)
            && Begin(Retry(failed).value).1.artifacts == done.artifacts
  {
  }
}
