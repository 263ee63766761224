/** The request-scoped cost ledger: which model calls leave a usage row, and when the rows reach the database. */
module LlmLedger {
  import opened RedisLists
  import opened PipelineGraph
  import N = Nodes

  datatype Usage = Usage(model: string, micros: nat)

  /** How one provider call ends.  A malformed answer is priced before it is rejected. */
  datatype Answer = Answered(usage: Usage) | Unavailable | Malformed(usage: Usage) | Rejected

  /** The configured provider chain and the number of passes a node may make over it. */
  datatype Chain = Chain(providers: nat, attempts: nat)

  /** What stops a drive from outside, if anything does: a crash at a node, before or after its model call was made,
      or a crash or database error before the final commit or before the usage rows are committed. */
  datatype Stop = Never | AtNode(node: Node, called: bool) | AtFinalize | AtPersist

  /** The environment of one drive: how provider `i` answers pass `k` of node `n`, whether the classifier sends the
      run to review, whether a node without a model call succeeds, and what stops the drive. */
  datatype Script = Script(answers: (Node, nat, nat) -> Answer, review: bool, works: Node -> bool, stop: Stop)

  predicate UsesModel(n: Node) { n.Classify? || n.Extract? || n.DraftReply? || n.GenerateReport? }

  /** The same ports with another language model behind them. */
  ghost predicate SameButModel(p: N.Ports, q: N.Ports) {
    q == p.(classify := q.classify, extract := q.extract, draft := q.draft, report := q.report)
  }

  /** A node that does not use the model does the same whatever model is there. */
  lemma OnlyModelNodesSeeTheModel(p: N.Ports, q: N.Ports, n: Node, s: N.State, w: N.World)
    requires SameButModel(p, q) && !UsesModel(n)
    ensures N.RunNode(p, n, s, w) == N.RunNode(q, n, s, w)
  {
  }

  function At(s: Script, n: Node, k: nat, i: nat): Answer { s.answers(n, k, i) }

  // ----- one pass over the chain -----

  /** The answer of the first provider from `i` on that is available. */
  function FirstAvailable(c: Chain, s: Script, n: Node, k: nat, i: nat): Answer
    decreases c.providers - i
  {
    if i >= c.providers then Unavailable
    else if At(s, n, k, i).Unavailable? then FirstAvailable(c, s, n, k, i + 1)
    else At(s, n, k, i)
  }

  ghost predicate NoneBefore(s: Script, n: Node, k: nat, i: nat) {
    forall j :: 0 <= j < i ==> At(s, n, k, j).Unavailable?
  }

  /** The pass ends with provider `i`: it is the first that is available. */
  ghost predicate Decides(c: Chain, s: Script, n: Node, k: nat, i: nat) {
    i < c.providers && NoneBefore(s, n, k, i) && !At(s, n, k, i).Unavailable?
  }

  lemma {:induction false} PassEndsAtFirstAvailable(c: Chain, s: Script, n: Node, k: nat, i: nat)
    requires i <= c.providers && NoneBefore(s, n, k, i)
    ensures FirstAvailable(c, s, n, k, i).Unavailable? <==> NoneBefore(s, n, k, c.providers)
    ensures forall j: nat :: Decides(c, s, n, k, j) ==> FirstAvailable(c, s, n, k, i) == At(s, n, k, j)
    decreases c.providers - i
  {
    if i < c.providers && At(s, n, k, i).Unavailable? {
      PassEndsAtFirstAvailable(c, s, n, k, i + 1);
    }
  }

  /** What an answer leaves in the ledger. */
  function Priced(a: Answer): seq<Usage> {
    if a.Answered? || a.Malformed? then [a.usage] else []
  }

  // ----- one call with in-run retries -----

  /** How a call ends whose next pass is number `k`: passes go on while no provider is available. */
  function CallEnd(c: Chain, s: Script, n: Node, k: nat): Answer
    decreases c.attempts - k
  {
    if k >= c.attempts then Unavailable
    else
      var last := FirstAvailable(c, s, n, k, 0);
      if last.Unavailable? then CallEnd(c, s, n, k + 1) else last
  }

  /** Pass `k` is the first to find a provider, and that one answers. */
  ghost predicate SucceedsAt(c: Chain, s: Script, n: Node, k: nat, i: nat) {
    && k < c.attempts && (forall m: nat :: m < k ==> NoneBefore(s, n, m, c.providers))
    && Decides(c, s, n, k, i) && At(s, n, k, i).Answered?
  }

  lemma {:induction false} CallEndsAtDecider(c: Chain, s: Script, n: Node, from: nat, k: nat, i: nat)
    requires from <= k < c.attempts && Decides(c, s, n, k, i)
    requires forall m: nat :: from <= m < k ==> NoneBefore(s, n, m, c.providers)
    ensures CallEnd(c, s, n, from) == At(s, n, k, i)
    decreases k - from
  {
    PassEndsAtFirstAvailable(c, s, n, from, 0);
    if from < k {
      CallEndsAtDecider(c, s, n, from + 1, k, i);
    }
  }

  lemma {:induction false} FirstDecider(c: Chain, s: Script, n: Node, k: nat, i: nat) returns (j: nat)
    requires i <= c.providers && NoneBefore(s, n, k, i) && !FirstAvailable(c, s, n, k, i).Unavailable?
    ensures Decides(c, s, n, k, j) && FirstAvailable(c, s, n, k, i) == At(s, n, k, j)
    decreases c.providers - i
  {
    j := i;
    if At(s, n, k, i).Unavailable? {
      j := FirstDecider(c, s, n, k, i + 1);
    }
  }

  lemma {:induction false} CallDecider(c: Chain, s: Script, n: Node, from: nat) returns (k: nat, i: nat)
    requires forall m: nat :: m < from ==> NoneBefore(s, n, m, c.providers)
    requires CallEnd(c, s, n, from).Answered?
    ensures SucceedsAt(c, s, n, k, i)
    decreases c.attempts - from
  {
    PassEndsAtFirstAvailable(c, s, n, from, 0);
    if FirstAvailable(c, s, n, from, 0).Unavailable? {
      k, i := CallDecider(c, s, n, from + 1);
    } else {
      k := from;
      i := FirstDecider(c, s, n, from, 0);
    }
  }

  /** A call succeeds exactly when the first provider found available in the first pass that finds one answers. */
  lemma CallSucceedsExactlyWhen(c: Chain, s: Script, n: Node)
    ensures CallEnd(c, s, n, 0).Answered? <==> exists k: nat, i: nat :: SucceedsAt(c, s, n, k, i)
  {
    if CallEnd(c, s, n, 0).Answered? {
      var k, i := CallDecider(c, s, n, 0);
    }
    if k: nat, i: nat :| SucceedsAt(c, s, n, k, i) {
      CallEndsAtDecider(c, s, n, 0, k, i);
    }
  }

  // ----- one stream -----

  /** The ledger rows of a node: those of its model call, if the drive gets to make it. */
  function NodeRows(c: Chain, s: Script, n: Node): seq<Usage> {
    if !UsesModel(n) || s.stop == AtNode(n, false) then [] else Priced(CallEnd(c, s, n, 0))
  }

  predicate NodeWorks(c: Chain, s: Script, n: Node) {
    && !(s.stop.AtNode? && s.stop.node == n)
    && (if UsesModel(n) then CallEnd(c, s, n, 0).Answered? else s.works(n))
  }

  function RowsFrom(c: Chain, s: Script, n: Node): seq<Usage>
    decreases c.providers, 8 - Rank(n)
  {
    var next := Successor(n, s.review);
    NodeRows(c, s, n) + (if NodeWorks(c, s, n) && next.Some? then RowsFrom(c, s, next.value) else [])
  }

  predicate CompletesFrom(c: Chain, s: Script, n: Node)
    decreases c.providers, 8 - Rank(n)
  {
    var next := Successor(n, s.review);
    NodeWorks(c, s, n) && (next.Some? ==> CompletesFrom(c, s, next.value))
  }

  /** Every node on the run's path works. */
  ghost predicate Completes(c: Chain, s: Script) {
    forall n: Node :: OnPath(n, s.review) ==> NodeWorks(c, s, n)
  }

  /** The usage rows a drive incurs. */
  function Incurred(c: Chain, s: Script): seq<Usage> { RowsFrom(c, s, ENTRY) }

  lemma {:induction false} PathIsFollowed(c: Chain, s: Script, n: Node)
    requires OnPath(n, s.review)
    ensures CompletesFrom(c, s, n)
            <==> forall m: Node :: OnPath(m, s.review) && Rank(m) >= Rank(n) ==> NodeWorks(c, s, m)
    decreases 8 - Rank(n)
  {
    var next := Successor(n, s.review);
    if next.Some? {
      PathIsFollowed(c, s, next.value);
    }
    forall m: Node | OnPath(m, s.review) && Rank(m) >= Rank(n)
      ensures m == n || (next.Some? && Rank(m) >= Rank(next.value))
    {
    }
  }

  lemma CompletesFromEntry(c: Chain, s: Script)
    ensures CompletesFrom(c, s, ENTRY) <==> Completes(c, s)
  {
    PathIsFollowed(c, s, ENTRY);
  }

  /** Model calls from node `n` to the end of the path. */
  function ModelCallsFrom(n: Node, review: bool): nat
    decreases 8 - Rank(n)
  {
    var next := Successor(n, review);
    (if UsesModel(n) then 1 else 0) + (if next.Some? then ModelCallsFrom(next.value, review) else 0)
  }

  lemma ModelCallsOfPath()
    ensures ModelCallsFrom(ENTRY, true) == 1 && ModelCallsFrom(ENTRY, false) == 4
  {
    assert ModelCallsFrom(GenerateReport, false) == 1;
    assert ModelCallsFrom(Persist, false) == 1;
    assert ModelCallsFrom(Notify, false) == 1;
    assert ModelCallsFrom(DraftReply, false) == 2;
    assert ModelCallsFrom(CreateTicket, false) == 2;
    assert ModelCallsFrom(Retrieve, false) == 2;
    assert ModelCallsFrom(Extract, false) == 3;
  }

  lemma {:induction false} OneRowPerCall(c: Chain, s: Script, n: Node)
    requires CompletesFrom(c, s, n)
    ensures |RowsFrom(c, s, n)| == ModelCallsFrom(n, s.review)
    decreases 8 - Rank(n)
  {
    if Successor(n, s.review).Some? {
      OneRowPerCall(c, s, Successor(n, s.review).value);
    }
  }

  /** A run that completes incurred exactly four rows on the confident path and one on the review path. */
  lemma CompletedRunRows(c: Chain, s: Script)
    requires Completes(c, s)
    ensures |Incurred(c, s)| == if s.review then 1 else 4
  {
    CompletesFromEntry(c, s);
    OneRowPerCall(c, s, ENTRY);
    ModelCallsOfPath();
  }

  /** A stream begun at `start` that has left `rows` so far and goes on with `next` unless it failed. */
  predicate Streaming(c: Chain, s: Script, start: Node, rows: seq<Usage>, ok: bool, next: Option<Node>) {
    var going := ok && next.Some?;
    && RowsFrom(c, s, start) == rows + (if going then RowsFrom(c, s, next.value) else [])
    && (CompletesFrom(c, s, start) <==> ok && (going ==> CompletesFrom(c, s, next.value)))
  }

  lemma StreamingStarts(c: Chain, s: Script, start: Node)
    ensures Streaming(c, s, start, [], true, Some(start))
  {
    assert [] + RowsFrom(c, s, start) == RowsFrom(c, s, start);
  }

  lemma StreamingNext(c: Chain, s: Script, start: Node, rows: seq<Usage>, n: Node)
    requires Streaming(c, s, start, rows, true, Some(n))
    ensures Streaming(c, s, start, rows + NodeRows(c, s, n), NodeWorks(c, s, n), Successor(n, s.review))
  {
    var next := Successor(n, s.review);
    var rest := if NodeWorks(c, s, n) && next.Some? then RowsFrom(c, s, next.value) else [];
    assert RowsFrom(c, s, n) == NodeRows(c, s, n) + rest;
    Reassociate(rows, NodeRows(c, s, n), rest);
  }

  lemma StreamingEnds(c: Chain, s: Script, rows: seq<Usage>, ok: bool, next: Option<Node>)
    requires Streaming(c, s, ENTRY, rows, ok, next) && !(ok && next.Some?)
    ensures ok <==> Completes(c, s)
    ensures rows == Incurred(c, s)
    ensures ok ==> |rows| == if s.review then 1 else 4
  {
    CompletesFromEntry(c, s);
    if ok {
      CompletedRunRows(c, s);
    }
  }

  // ----- a chain that ends in a model that always answers -----

  ghost predicate AlwaysAnswers(s: Script, provider: nat) {
    forall n: Node, k: nat :: At(s, n, k, provider).Answered?
  }

  /** Every provider but the last answers or is unavailable, in any pattern; the last always answers. */
  ghost predicate EndsInTotalModel(c: Chain, s: Script) {
    && c.providers >= 1
    && (forall n: Node, k: nat, i: nat :: i < c.providers - 1 ==>
          At(s, n, k, i).Answered? || At(s, n, k, i).Unavailable?)
    && AlwaysAnswers(s, c.providers - 1)
  }

  lemma {:induction false} TotalModelAnswers(c: Chain, s: Script, n: Node, k: nat, i: nat)
    requires EndsInTotalModel(c, s) && i < c.providers
    ensures FirstAvailable(c, s, n, k, i).Answered?
    decreases c.providers - i
  {
    if i == c.providers - 1 {
      assert At(s, n, k, c.providers - 1).Answered?;
    } else if At(s, n, k, i).Unavailable? {
      TotalModelAnswers(c, s, n, k, i + 1);
    }
  }

  /** Ledger exactness: whatever transient failures the providers before the last one have, a drive that nothing
      stops from outside completes, with exactly four usage rows, or one on the review path. */
  lemma TotalModelCompletes(c: Chain, s: Script)
    requires EndsInTotalModel(c, s) && c.attempts >= 1
    requires !s.stop.AtNode? && forall n: Node :: !UsesModel(n) ==> s.works(n)
    ensures Completes(c, s)
    ensures |Incurred(c, s)| == if s.review then 1 else 4
  {
    forall n: Node ensures NodeWorks(c, s, n) {
      TotalModelAnswers(c, s, n, 0, 0);
    }
    CompletedRunRows(c, s);
  }

  // ----- what is recorded -----

  /** The drive gets as far as committing its usage rows. */
  ghost predicate ReachesPersist(c: Chain, s: Script) {
    Completes(c, s) && !s.stop.AtFinalize? && !s.stop.AtPersist?
  }

  ghost function Recorded(c: Chain, s: Script): seq<Usage> {
    if ReachesPersist(c, s) then Incurred(c, s) else []
  }

  function Spend(rows: seq<Usage>): nat {
    if rows == [] then 0 else Spend(rows[..|rows| - 1]) + rows[|rows| - 1].micros
  }

  /** Spend adds up over any two parts of a ledger; one row counts for its price. */
  lemma {:induction false} SpendInParts(a: seq<Usage>, b: seq<Usage>)
    ensures Spend(a + b) == Spend(a) + Spend(b)
    ensures forall u: Usage :: Spend([u]) == u.micros
  {
    forall u: Usage ensures Spend([u]) == u.micros {
      assert [u][..0] == [];
    }
    if b == [] {
      assert a + b == a;
    } else {
      SpendInParts(a, b[..|b| - 1]);
      assert (a + b)[..|a + b| - 1] == a + b[..|b| - 1];
    }
  }

  predicate NothingPriced(rows: seq<Usage>) {
    forall i :: 0 <= i < |rows| ==> rows[i].micros == 0
  }

  lemma {:induction false} FreeExactlyWhenNothingPriced(rows: seq<Usage>)
    ensures Spend(rows) == 0 <==> NothingPriced(rows)
  {
    if rows != [] {
      var front := rows[..|rows| - 1];
      FreeExactlyWhenNothingPriced(front);
      assert forall i :: 0 <= i < |front| ==> rows[i] == front[i];
    }
  }

  /** Cost is not always recorded: the recorded spend of a drive is what it incurred exactly when the drive reaches
      the commit of its usage rows, or nothing it called was priced. */
  lemma SpendRecordedExactlyWhen(c: Chain, s: Script)
    ensures Spend(Recorded(c, s)) == Spend(Incurred(c, s)) <==> ReachesPersist(c, s) || NothingPriced(Incurred(c, s))
  {
    FreeExactlyWhenNothingPriced(Incurred(c, s));
  }

  /** A paid classification followed by a malformed extraction: the provider charged for both, nothing is recorded. */
  lemma FailedRunLosesItsCost(c: Chain, s: Script, paid: Usage, charged: Usage)
    requires c.providers >= 1 && c.attempts >= 1 && !s.review && s.stop == Never
    requires paid.micros > 0 && At(s, Classify, 0, 0) == Answered(paid) && At(s, Extract, 0, 0) == Malformed(charged)
    ensures Incurred(c, s) == [paid, charged] && Recorded(c, s) == []
    ensures Spend(Recorded(c, s)) < Spend(Incurred(c, s))
  {
    assert CallEnd(c, s, Classify, 0) == Answered(paid) && CallEnd(c, s, Extract, 0) == Malformed(charged);
    assert OnPath(Extract, s.review) && !NodeWorks(c, s, Extract);
    assert RowsFrom(c, s, Extract) == [charged];
    assert [paid, charged][..1] == [paid] && [paid][..0] == [];
  }

  /** A completed run loses its cost when the process dies between the final commit and the usage rows. */
  lemma CrashBeforePersistLosesCost(c: Chain, s: Script)
    requires Completes(c, s) && s.stop == AtPersist && !NothingPriced(Incurred(c, s))
    ensures Recorded(c, s) == [] && Spend(Recorded(c, s)) < Spend(Incurred(c, s))
  {
    FreeExactlyWhenNothingPriced(Incurred(c, s));
  }

  // ----- the drive as the program runs it -----

  /** One drive's ledger, and the usage rows of the database. */
  class Run {
    const chain: Chain
    var ledger: seq<Usage>
    var rows: seq<Usage>

    constructor (chain: Chain, rows: seq<Usage>)
      ensures this.chain == chain && ledger == [] && this.rows == rows
    {
      this.chain, this.ledger, this.rows := chain, [], rows;
    }

    /** One pass down the provider chain: the first available provider decides. */
    method Failover(s: Script, n: Node, k: nat) returns (last: Answer)
      modifies this`ledger
      ensures last == FirstAvailable(chain, s, n, k, 0)
      ensures last.Unavailable? <==> NoneBefore(s, n, k, chain.providers)
      ensures forall i: nat :: Decides(chain, s, n, k, i) ==> last == At(s, n, k, i)
      ensures ledger == old(ledger) + Priced(last)
    {
      PassEndsAtFirstAvailable(chain, s, n, k, 0);
      var i := 0;
      last := Unavailable;
      while i < chain.providers
        invariant 0 <= i <= chain.providers && last.Unavailable? && ledger == old(ledger)
        invariant FirstAvailable(chain, s, n, k, i) == FirstAvailable(chain, s, n, k, 0)
      {
        last := At(s, n, k, i);
        if last.Answered? || last.Malformed? {
          ledger := ledger + [last.usage];
        }
        if !last.Unavailable? {
          return;
        }
        i := i + 1;
      }
    }

    /** A model call with in-run retries: it succeeds exactly when the first provider found available answers, and
        a success leaves exactly one row, however many transient failures came before it. */
    method Call(s: Script, n: Node) returns (ok: bool)
      modifies this`ledger
      ensures ok <==> exists k: nat, i: nat :: SucceedsAt(chain, s, n, k, i)
      ensures ok <==> CallEnd(chain, s, n, 0).Answered?
      ensures ledger == old(ledger) + Priced(CallEnd(chain, s, n, 0))
      ensures ok ==> |ledger| == |old(ledger)| + 1
    {
      CallSucceedsExactlyWhen(chain, s, n);
      var k := 0;
      while k < chain.attempts
        invariant 0 <= k && ledger == old(ledger)
        invariant CallEnd(chain, s, n, k) == CallEnd(chain, s, n, 0)
      {
        var last := Failover(s, n, k);
        if !last.Unavailable? {
          return last.Answered?;
        }
        k := k + 1;
      }
      ok := false;
    }

    /** A run completes exactly when every node on its path works, and leaves the rows of the calls it made. */
    method Stream(s: Script) returns (completed: bool)
      requires ledger == []
      modifies this`ledger
      ensures completed <==> Completes(chain, s)
      ensures ledger == Incurred(chain, s)
      ensures completed ==> |ledger| == if s.review then 1 else 4
    {
      var next := Some(ENTRY);
      completed := true;
      StreamingStarts(chain, s, ENTRY);
      while completed && next.Some?
        invariant Streaming(chain, s, ENTRY, ledger, completed, next)
        decreases if completed && next.Some? then 9 - Rank(next.value) else 0
      {
        var n := next.value;
        StreamingNext(chain, s, ENTRY, ledger, n);
        EdgesClimb(n, s.review);
        completed := Visit(s, n);
        next := Successor(n, s.review);
      }
      StreamingEnds(chain, s, ledger, completed, next);
    }

    /** One node of the stream. */
    method Visit(s: Script, n: Node) returns (ok: bool)
      modifies this`ledger
      ensures ok <==> NodeWorks(chain, s, n)
      ensures ledger == old(ledger) + NodeRows(chain, s, n)
    {
      ok := true;
      if s.stop == AtNode(n, false) {
        return false;
      }
      if UsesModel(n) {
        ok := Call(s, n);
      } else {
        ok := s.works(n);
      }
      ok := ok && s.stop != AtNode(n, true);
    }

    /** One drive: stream, commit the outcome, then commit the usage rows.  The last step runs only if nothing went
        wrong before it. */
    method Drive(s: Script) returns (recorded: bool)
      requires ledger == []
      modifies this
      ensures ledger == Incurred(chain, s)
      ensures recorded <==> ReachesPersist(chain, s)
      ensures rows == old(rows) + Recorded(chain, s)
    {
      var completed := Stream(s);
      if !completed || s.stop.AtFinalize? || s.stop.AtPersist? {
        return false;
      }
      rows := rows + ledger;
      recorded := true;
    }
  }
}
