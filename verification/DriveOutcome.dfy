/** What one drive makes of a request, as a function of how its nodes end. */
module DriveOutcome {
  import opened RedisLists
  import opened PipelineGraph
  import opened RequestRow

  /** How the environment lets a node end. */
  datatype NodeOutcome = Done(output: Output, review: bool) | Transient(text: string) | Permanent(text: string)

  /** Where a stream stands at its end: the row with its checkpoints, the outputs of this drive, and what was raised. */
  datatype Streamed = Streamed(row: Row, final: map<Node, Output>, raised: Option<NodeOutcome>)

  function StreamFrom(r: Row, n: Node, final: map<Node, Output>, outcomes: Node -> NodeOutcome): (end: Streamed)
    ensures end.raised.Some? ==> !end.raised.value.Done?
    decreases r.attempts, 8 - Rank(n)
  {
    if !outcomes(n).Done? then Streamed(r, final, Some(outcomes(n)))
    else
      var output, next := outcomes(n).output, Successor(n, outcomes(n).review);
      if next.None? then Streamed(SaveStep(r, n, output), final[n := output], None)
      else StreamFrom(SaveStep(r, n, output), next.value, final[n := output], outcomes)
  }

  lemma StreamGoesOn(r: Row, n: Node, final: map<Node, Output>, outcomes: Node -> NodeOutcome)
    requires outcomes(n).Done?
    ensures var output, next := outcomes(n).output, Successor(n, outcomes(n).review);
            StreamFrom(r, n, final, outcomes)
            == if next.None? then Streamed(SaveStep(r, n, output), final[n := output], None)
               else StreamFrom(SaveStep(r, n, output), next.value, final[n := output], outcomes)
  {
  }

  /** A drive from its begin on: stream, and finalise or record the failure; whether it was requeued. */
  function AfterBegin(maxAttempts: int, r: Row, attempts: nat, outcomes: Node -> NodeOutcome): (bool, Row) {
    var end := StreamFrom(r, ENTRY, map[], outcomes);
    if end.raised.None? then (false, Finalize(end.row, end.final))
    else Fail(maxAttempts, end.row, attempts, end.raised.value.Transient?, end.raised.value.text)
  }

  function Driven(maxAttempts: int, r: Row, outcomes: Node -> NodeOutcome): (bool, Row) {
    var (attempts, r1) := Begin(r);
    if attempts.None? then (false, r1) else AfterBegin(maxAttempts, r1, attempts.value, outcomes)
  }

  // ----- what that means -----

  /** The classifier's verdict in this drive. */
  predicate Verdict(outcomes: Node -> NodeOutcome) {
    outcomes(Classify).Done? && outcomes(Classify).review
  }

  ghost predicate AllDone(outcomes: Node -> NodeOutcome) {
    forall n: Node :: OnPath(n, Verdict(outcomes)) ==> outcomes(n).Done?
  }

  ghost predicate DoneBefore(outcomes: Node -> NodeOutcome, n: Node) {
    forall m: Node :: OnPath(m, Verdict(outcomes)) && Rank(m) < Rank(n) ==> outcomes(m).Done?
  }

  /** The drive gets to node `n`. */
  ghost predicate Reaches(outcomes: Node -> NodeOutcome, n: Node) {
    OnPath(n, Verdict(outcomes)) && DoneBefore(outcomes, n)
  }

  /** Node `n` is the one that raises. */
  ghost predicate Raises(outcomes: Node -> NodeOutcome, n: Node) {
    Reaches(outcomes, n) && !outcomes(n).Done?
  }

  ghost predicate OutputsBefore(outcomes: Node -> NodeOutcome, n: Node, final: map<Node, Output>) {
    && (forall m: Node :: m in final <==> OnPath(m, Verdict(outcomes)) && Rank(m) < Rank(n))
    && (forall m: Node :: m in final ==> outcomes(m).Done? && final[m] == outcomes(m).output)
  }

  /** The outputs of the nodes that were reached and done, and no others. */
  ghost predicate OutputsOf(outcomes: Node -> NodeOutcome, final: map<Node, Output>) {
    && (forall m: Node :: m in final <==> Reaches(outcomes, m) && outcomes(m).Done?)
    && (forall m: Node :: m in final ==> final[m] == outcomes(m).output)
  }

  /** The stream raises what the first node that is not done raised, or nothing if all are. */
  ghost predicate RaisedBy(outcomes: Node -> NodeOutcome, raised: Option<NodeOutcome>) {
    && (raised.None? <==> AllDone(outcomes))
    && (forall n: Node :: Raises(outcomes, n) ==> raised == Some(outcomes(n)))
    && (raised.Some? ==> exists n: Node :: Raises(outcomes, n))
  }

  lemma NextOnPath(outcomes: Node -> NodeOutcome, n: Node)
    requires OnPath(n, Verdict(outcomes)) && outcomes(n).Done?
    ensures var next := Successor(n, outcomes(n).review);
            if next.None? then forall m: Node :: OnPath(m, Verdict(outcomes)) ==> Rank(m) <= Rank(n)
            else OnPath(next.value, Verdict(outcomes)) && Rank(next.value) == Rank(n) + 1
  {
  }

  lemma SameRankSameNode(m: Node, n: Node, review: bool)
    requires OnPath(m, review) && OnPath(n, review) && Rank(m) == Rank(n)
    ensures m == n
  {
  }

  lemma OneMoreOutput(outcomes: Node -> NodeOutcome, n: Node, final: map<Node, Output>)
    requires OnPath(n, Verdict(outcomes)) && outcomes(n).Done? && OutputsBefore(outcomes, n, final)
    ensures var next, more := Successor(n, outcomes(n).review), final[n := outcomes(n).output];
            if next.Some? then OutputsBefore(outcomes, next.value, more)
            else OutputsOf(outcomes, more) && AllDone(outcomes)
  {
    NextOnPath(outcomes, n);
    forall m: Node | OnPath(m, Verdict(outcomes)) && Rank(m) == Rank(n) ensures m == n {
      SameRankSameNode(m, n, Verdict(outcomes));
    }
  }

  lemma NothingBeyond(outcomes: Node -> NodeOutcome, n: Node, m: Node)
    requires OnPath(n, Verdict(outcomes)) && !outcomes(n).Done? && Reaches(outcomes, m)
    ensures Rank(m) <= Rank(n) && (outcomes(m).Done? ==> Rank(m) < Rank(n))
  {
    if Rank(m) == Rank(n) {
      SameRankSameNode(m, n, Verdict(outcomes));
    }
  }

  lemma StopsHere(outcomes: Node -> NodeOutcome, n: Node, final: map<Node, Output>)
    requires OnPath(n, Verdict(outcomes)) && !outcomes(n).Done? && OutputsBefore(outcomes, n, final)
    ensures OutputsOf(outcomes, final)
  {
    forall m: Node ensures m in final <==> Reaches(outcomes, m) && outcomes(m).Done? {
      if Reaches(outcomes, m) {
        NothingBeyond(outcomes, n, m);
      }
    }
  }

  lemma RaisesHere(outcomes: Node -> NodeOutcome, n: Node)
    requires Raises(outcomes, n)
    ensures RaisedBy(outcomes, Some(outcomes(n)))
  {
    forall m: Node | Raises(outcomes, m) ensures m == n {
      NothingBeyond(outcomes, n, m);
      NothingBeyond(outcomes, m, n);
      SameRankSameNode(m, n, Verdict(outcomes));
    }
  }

  lemma {:induction false} StreamFromIs(r: Row, n: Node, final: map<Node, Output>, outcomes: Node -> NodeOutcome)
    requires OnPath(n, Verdict(outcomes)) && OutputsBefore(outcomes, n, final)
    ensures var end := StreamFrom(r, n, final, outcomes);
            OutputsOf(outcomes, end.final) && RaisedBy(outcomes, end.raised)
    decreases 8 - Rank(n)
  {
    if !outcomes(n).Done? {
      StopsHere(outcomes, n, final);
      RaisesHere(outcomes, n);
    } else {
      OneMoreOutput(outcomes, n, final);
      NextOnPath(outcomes, n);
      var next := Successor(n, outcomes(n).review);
      if next.Some? {
        StreamFromIs(SaveStep(r, n, outcomes(n).output), next.value, final[n := outcomes(n).output], outcomes);
      }
    }
  }

  /** A stream keeps the outputs of exactly the nodes it reached that were done, and raises what the first other node
      on its path raised. */
  lemma StreamIs(r: Row, outcomes: Node -> NodeOutcome)
    ensures var end := StreamFrom(r, ENTRY, map[], outcomes);
            OutputsOf(outcomes, end.final) && RaisedBy(outcomes, end.raised)
  {
    StreamFromIs(r, ENTRY, map[], outcomes);
  }

  /** Old checkpoints win over the outputs of this drive, and nothing else of the row changes. */
  lemma {:induction false} StreamKeepsRow(base: Row, r: Row, n: Node, final: map<Node, Output>,
                                          outcomes: Node -> NodeOutcome)
    requires r == base.(steps := final + base.steps)
    requires forall m: Node :: m in final ==> Rank(m) < Rank(n)
    ensures var end := StreamFrom(r, n, final, outcomes); end.row == base.(steps := end.final + base.steps)
    decreases 8 - Rank(n)
  {
    if outcomes(n).Done? {
      var output, next := outcomes(n).output, Successor(n, outcomes(n).review);
      EdgesClimb(n, outcomes(n).review);
      assert SaveStep(r, n, output).steps == final[n := output] + base.steps;
      if next.Some? {
        StreamKeepsRow(base, SaveStep(r, n, output), next.value, final[n := output], outcomes);
      }
    }
  }

  predicate Open(r: Row) { Live(r) && !HasTerminalStep(r) }

  lemma StreamOfOpen(r: Row, outcomes: Node -> NodeOutcome) returns (end: Streamed)
    requires Open(r)
    ensures end == StreamFrom(Begin(r).1, ENTRY, map[], outcomes) && Begin(r).0 == Some(r.attempts + 1)
    ensures OutputsOf(outcomes, end.final) && RaisedBy(outcomes, end.raised)
    ensures end.row.attempts == r.attempts + 1
  {
    var r1 := Begin(r).1;
    StreamIs(r1, outcomes);
    assert map[] + r1.steps == r1.steps;
    StreamKeepsRow(r1, r1, ENTRY, map[], outcomes);
    end := StreamFrom(r1, ENTRY, map[], outcomes);
  }

  lemma DoneDriveEnds(maxAttempts: int, r: Row, outcomes: Node -> NodeOutcome)
    requires Open(r) && AllDone(outcomes)
    ensures var (requeue, end) := Driven(maxAttempts, r, outcomes);
            && !requeue && end.attempts == r.attempts + 1 && end.error == NoError
            && end.status == if Verdict(outcomes) then NeedsReview else Completed
  {
    var end := StreamOfOpen(r, outcomes);
    assert Reaches(outcomes, GenerateReport) <==> !Verdict(outcomes);
    assert Reaches(outcomes, HumanReview) <==> Verdict(outcomes);
  }

  lemma RaisedDriveEnds(maxAttempts: int, r: Row, outcomes: Node -> NodeOutcome, n: Node)
    requires Open(r) && Raises(outcomes, n)
    ensures var (requeue, end) := Driven(maxAttempts, r, outcomes);
            && end.attempts == r.attempts + 1
            && (requeue <==> outcomes(n).Transient? && r.attempts + 1 < maxAttempts)
            && end.status == (if requeue then Queued else Failed)
            && end.error == (if requeue then Retrying(r.attempts + 1, maxAttempts, outcomes(n).text)
                             else GaveUp(outcomes(n).text))
  {
    var end := StreamOfOpen(r, outcomes);
    assert end.raised == Some(outcomes(n));
  }

  /** How a drive of an open request ends: COMPLETED or NEEDS_REVIEW by the classifier's verdict, with the error note
      cleared, if every node on its path is done; otherwise by the first node that is not: back to QUEUED after a
      transient error with attempts left, FAILED after any other, with a note of that error. */
  lemma DriveEndsAsNodesDo(maxAttempts: int, r: Row, outcomes: Node -> NodeOutcome)
    requires Live(r) && !HasTerminalStep(r)
    ensures var (requeue, end) := Driven(maxAttempts, r, outcomes);
            && end.attempts == r.attempts + 1
            && (AllDone(outcomes) ==>
                  && !requeue && end.status == (if Verdict(outcomes) then NeedsReview else Completed)
                  && end.error == NoError)
            && (forall n: Node :: Raises(outcomes, n) ==>
                  && (requeue <==> outcomes(n).Transient? && r.attempts + 1 < maxAttempts)
                  && end.status == (if requeue then Queued else Failed)
                  && end.error == (if requeue then Retrying(r.attempts + 1, maxAttempts, outcomes(n).text)
                                   else GaveUp(outcomes(n).text)))
            && (AllDone(outcomes) || exists n: Node :: Raises(outcomes, n))
  {
    if AllDone(outcomes) {
      DoneDriveEnds(maxAttempts, r, outcomes);
    } else {
      var end := StreamOfOpen(r, outcomes);
      var m: Node :| Raises(outcomes, m);
      RaisedDriveEnds(maxAttempts, r, outcomes, m);
    }
    forall n: Node | Raises(outcomes, n)
      ensures var (requeue, end) := Driven(maxAttempts, r, outcomes);
              && (requeue <==> outcomes(n).Transient? && r.attempts + 1 < maxAttempts)
              && end.status == (if requeue then Queued else Failed)
              && end.error == (if requeue then Retrying(r.attempts + 1, maxAttempts, outcomes(n).text)
                               else GaveUp(outcomes(n).text))
    {
      RaisedDriveEnds(maxAttempts, r, outcomes, n);
    }
  }

  /** A drive checkpoints exactly what its nodes put out, keeping what earlier drives saved, and adds the artifacts of
      its outputs only if every node was done. */
  lemma DriveSavesOutputs(maxAttempts: int, r: Row, outcomes: Node -> NodeOutcome) returns (final: map<Node, Output>)
    requires Live(r) && !HasTerminalStep(r)
    ensures OutputsOf(outcomes, final)
    ensures var end := Driven(maxAttempts, r, outcomes).1;
            && end.steps == final + r.steps
            && end.artifacts == r.artifacts + (if AllDone(outcomes) then ArtifactsOf(final) else [])
  {
    var r1 := Begin(r).1;
    StreamIs(r1, outcomes);
    assert map[] + r1.steps == r1.steps;
    StreamKeepsRow(r1, r1, ENTRY, map[], outcomes);
    final := StreamFrom(r1, ENTRY, map[], outcomes).final;
    assert r.artifacts + [] == r.artifacts;
  }

  /** A request that is over is left alone; an open one with a terminal checkpoint is only settled. */
  lemma NothingToDrive(maxAttempts: int, r: Row, outcomes: Node -> NodeOutcome)
    requires !Live(r) || HasTerminalStep(r)
    ensures var (requeue, end) := Driven(maxAttempts, r, outcomes);
            && !requeue && end.steps == r.steps && end.artifacts == r.artifacts && end.attempts == r.attempts
            && (!Live(r) ==> end == r)
            && (Live(r) ==> end.status == if HumanReview in r.steps then NeedsReview else Completed)
  {
  }

  /** Whatever its nodes do, a drive never leaves its request RUNNING. */
  lemma NeverLeftRunning(maxAttempts: int, r: Row, outcomes: Node -> NodeOutcome)
    ensures Driven(maxAttempts, r, outcomes).1.status != Running
  {
    if Live(r) && !HasTerminalStep(r) {
      DriveEndsAsNodesDo(maxAttempts, r, outcomes);
    } else {
      NothingToDrive(maxAttempts, r, outcomes);
    }
  }
}
