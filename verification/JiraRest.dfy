/** The Jira adapter: search for the request's label, then create, over a channel that loses requests and answers. */
module JiraRest {
  import opened RedisLists
  import opened Retry
  import N = Nodes
  import H = EffectHistory

  /** An issue is known by its position in the store; issues are never deleted. */
  datatype Issue = Issue(labels: seq<string>)

  /** What becomes of one HTTP exchange.  A timeout, a transport error, a 429 or a 5xx may hit before or after the
      server did the work; any other 4xx did no work; an empty body arrives after it. */
  datatype Fate = Delivered | Lost(processed: bool, code: string) | Rejected | Empty

  predicate Processed(f: Fate) { f.Delivered? || f.Empty? || (f.Lost? && f.processed) }

  predicate IsTopic(t: string) {
    t == "billing" || t == "technical_support" || t == "account" || t == "sales" || t == "complaint" || t == "other"
  }

  function Labels(topic: string, tag: string): seq<string> { [topic, tag] }

  predicate Carries(i: Issue, tag: string) { tag in i.labels }

  function HowMany(issues: seq<Issue>, tag: string): nat {
    if issues == [] then 0
    else HowMany(issues[..|issues| - 1], tag) + (if Carries(issues[|issues| - 1], tag) then 1 else 0)
  }

  lemma HowManyExtended(issues: seq<Issue>, i: Issue, tag: string)
    ensures HowMany(issues + [i], tag) == HowMany(issues, tag) + (if Carries(i, tag) then 1 else 0)
  {
    assert (issues + [i])[..|issues|] == issues;
  }

  lemma {:induction false} CarrierCounts(issues: seq<Issue>, i: nat, tag: string)
    requires i < |issues| && Carries(issues[i], tag)
    ensures HowMany(issues, tag) >= 1
  {
    if i < |issues| - 1 {
      CarrierCounts(issues[..|issues| - 1], i, tag);
    }
  }

  /** With one carrier at most, two positions that carry the label are the same. */
  lemma {:induction false} CarrierIsUnique(issues: seq<Issue>, i: nat, j: nat, tag: string)
    requires i < |issues| && j < |issues| && Carries(issues[i], tag) && Carries(issues[j], tag)
    requires HowMany(issues, tag) <= 1
    ensures i == j
  {
    var front := issues[..|issues| - 1];
    if i < |front| {
      CarrierCounts(front, i, tag);
    }
    if j < |front| {
      CarrierCounts(front, j, tag);
    }
    if i < |front| && j < |front| {
      CarrierIsUnique(front, i, j, tag);
    }
  }

  /** The search, as the server answers it: an issue that carries the label, if there is one. */
  function Find(issues: seq<Issue>, tag: string): (r: Option<nat>)
    ensures r.None? <==> HowMany(issues, tag) == 0
    ensures r.Some? ==> r.value < |issues| && Carries(issues[r.value], tag)
  {
    if issues == [] then None
    else
      var earlier := Find(issues[..|issues| - 1], tag);
      if earlier.Some? then earlier
      else if Carries(issues[|issues| - 1], tag) then Some(|issues| - 1) else None
  }

  // ----- one call -----

  /** `_find_by_label`: an empty body reads as no match. */
  function SearchAnswer(issues: seq<Issue>, tag: string, f: Fate): Outcome<Option<nat>> {
    match f
    case Delivered => Success(Find(issues, tag))
    case Empty => Success(None)
    case Lost(_, code) => Transient(code)
    case Rejected => Permanent("jira_client_error")
  }

  /** The creating POST: an empty body has no key to read, an error the retry loop does not catch. */
  function PostAnswer(issues: seq<Issue>, f: Fate): Outcome<nat> {
    match f
    case Delivered => Success(|issues|)
    case Empty => Permanent("KeyError")
    case Lost(_, code) => Transient(code)
    case Rejected => Permanent("jira_client_error")
  }

  function AfterPost(issues: seq<Issue>, topic: string, tag: string, f: Fate): seq<Issue> {
    if Processed(f) then issues + [Issue(Labels(topic, tag))] else issues
  }

  function Call(issues: seq<Issue>, topic: string, tag: string, search: Fate, post: Fate): (Outcome<nat>, seq<Issue>) {
    match SearchAnswer(issues, tag, search)
    case Transient(code) => (Transient(code), issues)
    case Permanent(code) => (Permanent(code), issues)
    case Success(Some(i)) => (Success(i), issues)
    case Success(None) => (PostAnswer(issues, post), AfterPost(issues, topic, tag, post))
  }

  /** A call leaves a second labelled issue exactly when the search came back with an empty body although the
      issue was there, and the creation was carried out. */
  lemma SecondIssueExactlyWhen(issues: seq<Issue>, topic: string, tag: string, search: Fate, post: Fate)
    requires IsTopic(topic) && HowMany(issues, tag) <= 1
    ensures HowMany(Call(issues, topic, tag, search, post).1, tag) > 1
            <==> HowMany(issues, tag) == 1 && search.Empty? && Processed(post)
  {
    HowManyExtended(issues, Issue(Labels(topic, tag)), tag);
  }

  /** The search was answered and showed no issue. */
  predicate FindsNothing(issues: seq<Issue>, tag: string, search: Fate) {
    search.Empty? || (search.Delivered? && HowMany(issues, tag) == 0)
  }

  /** What comes back, from the two exchanges and the server alone: a lost exchange is worth a retry and says which
      way it was lost, a rejected one and a creation without a key are not, a search that shows an issue ends the call
      with it, and only a delivered creation makes a new one known. */
  lemma CallAnswers(issues: seq<Issue>, topic: string, tag: string, search: Fate, post: Fate)
    ensures var r := Call(issues, topic, tag, search, post).0;
            && (r.Transient? <==> search.Lost? || (FindsNothing(issues, tag, search) && post.Lost?))
            && (search.Lost? ==> r == Transient(search.code))
            && (FindsNothing(issues, tag, search) && post.Lost? ==> r == Transient(post.code))
            && (r.Permanent? <==>
                  search.Rejected? || (FindsNothing(issues, tag, search) && (post.Rejected? || post.Empty?)))
            && (r.Success? <==>
                  (search.Delivered? && HowMany(issues, tag) > 0)
                  || (FindsNothing(issues, tag, search) && post.Delivered?))
            && (search.Delivered? && HowMany(issues, tag) > 0 ==>
                  r.value < |issues| && Carries(issues[r.value], tag))
            && (FindsNothing(issues, tag, search) && post.Delivered? ==> r == Success(|issues|))
  {
  }

  /** What the server has afterwards: one more issue exactly if the creation was sent and carried out. */
  lemma CallStores(issues: seq<Issue>, topic: string, tag: string, search: Fate, post: Fate)
    ensures Call(issues, topic, tag, search, post).1
            == if FindsNothing(issues, tag, search) && Processed(post)
               then issues + [Issue([topic, tag])] else issues
  {
  }

  /** The adapter with its view of the server. */
  class JiraRestTickets {
    var issues: seq<Issue>

    constructor (issues: seq<Issue>)
      ensures this.issues == issues
    {
      this.issues := issues;
    }

    method CreateTicket(topic: string, tag: string, search: Fate, post: Fate) returns (r: Outcome<nat>)
      requires IsTopic(topic)
      modifies this
      ensures (r, issues) == Call(old(issues), topic, tag, search, post)
      ensures old(issues) <= issues
      ensures HowMany(old(issues), tag) <= 1 && !search.Empty? ==> HowMany(issues, tag) <= 1
      ensures r.Success? ==> r.value < |issues| && Carries(issues[r.value], tag)
    {
      if HowMany(issues, tag) <= 1 {
        SecondIssueExactlyWhen(issues, topic, tag, search, post);
      }
      var existing := SearchAnswer(issues, tag, search);
      match existing
      case Transient(code) => return Transient(code);
      case Permanent(code) => return Permanent(code);
      case Success(found) =>
        if found.Some? {
          return Success(found.value);
        }
        r := PostAnswer(issues, post);
        if Processed(post) {
          issues := issues + [Issue(Labels(topic, tag))];
        }
    }

    /** The node's retry loop around the adapter: calls are made up to the first that does not fail transiently, or
        all of them; one issue at most, whatever is lost on the way, and a ticket that is returned is that issue. */
    method CreateWithRetries(topic: string, tag: string, fates: seq<(Fate, Fate)>)
      returns (r: Outcome<nat>, calls: nat)
      requires IsTopic(topic) && |fates| >= 1
      modifies this
      ensures 1 <= calls <= |fates| && (calls == |fates| || !r.Transient?)
      ensures forall k :: 0 <= k < calls - 1 ==> AnswerAt(old(issues), topic, tag, fates, k).Transient?
      ensures r == AnswerAt(old(issues), topic, tag, fates, calls - 1)
      ensures forall k :: 0 <= k < |fates| && LostBefore(fates, k) && BothDelivered(fates, k)
                          ==> calls == k + 1 && r.Success?
      ensures issues == AfterCalls(old(issues), topic, tag, fates, calls)
      ensures old(issues) <= issues
      ensures HowMany(old(issues), tag) <= 1 && NoEmptySearch(fates) ==> HowMany(issues, tag) <= 1
      ensures r.Success? ==> r.value < |issues| && Carries(issues[r.value], tag)
    {
      calls, r := 0, Transient("");
      while calls < |fates| && r.Transient?
        invariant 0 <= calls <= |fates| && old(issues) <= issues
        invariant issues == AfterCalls(old(issues), topic, tag, fates, calls)
        invariant calls == 0 ==> r.Transient?
        invariant calls > 0 ==> r == AnswerAt(old(issues), topic, tag, fates, calls - 1)
        invariant forall k :: 0 <= k < calls - 1 ==> AnswerAt(old(issues), topic, tag, fates, k).Transient?
        invariant r.Success? ==> r.value < |issues| && Carries(issues[r.value], tag)
      {
        r := CreateTicket(topic, tag, fates[calls].0, fates[calls].1);
        calls := calls + 1;
      }
      CallsKeepOne(old(issues), topic, tag, fates, calls);
      forall k | 0 <= k < |fates| && LostBefore(fates, k) && BothDelivered(fates, k)
        ensures calls == k + 1 && r.Success?
      {
        DeliveredCallSucceeds(old(issues), topic, tag, fates, k);
      }
    }
  }

  /** The server after the first `k` calls. */
  function AfterCalls(issues: seq<Issue>, topic: string, tag: string, fates: seq<(Fate, Fate)>, k: nat): seq<Issue>
    requires k <= |fates|
  {
    if k == 0 then issues
    else Call(AfterCalls(issues, topic, tag, fates, k - 1), topic, tag, fates[k - 1].0, fates[k - 1].1).1
  }

  lemma {:induction false} CallsKeepOne(issues: seq<Issue>, topic: string, tag: string,
                                        fates: seq<(Fate, Fate)>, k: nat)
    requires IsTopic(topic) && k <= |fates|
    ensures HowMany(issues, tag) <= 1 && NoEmptySearch(fates)
            ==> HowMany(AfterCalls(issues, topic, tag, fates, k), tag) <= 1
  {
    if k > 0 && HowMany(issues, tag) <= 1 && NoEmptySearch(fates) {
      CallsKeepOne(issues, topic, tag, fates, k - 1);
      var before := AfterCalls(issues, topic, tag, fates, k - 1);
      SecondIssueExactlyWhen(before, topic, tag, fates[k - 1].0, fates[k - 1].1);
    }
  }

  function AnswerAt(issues: seq<Issue>, topic: string, tag: string, fates: seq<(Fate, Fate)>, k: nat): Outcome<nat>
    requires k < |fates|
  {
    Call(AfterCalls(issues, topic, tag, fates, k), topic, tag, fates[k].0, fates[k].1).0
  }

  /** Every call before number `k` lost its search. */
  predicate LostBefore(fates: seq<(Fate, Fate)>, k: nat)
    requires k <= |fates|
  {
    forall m :: 0 <= m < k ==> fates[m].0.Lost?
  }

  predicate BothDelivered(fates: seq<(Fate, Fate)>, k: nat)
    requires k < |fates|
  {
    fates[k].0.Delivered? && fates[k].1.Delivered?
  }

  /** However many searches are lost first, the first call whose exchanges are delivered succeeds. */
  lemma DeliveredCallSucceeds(issues: seq<Issue>, topic: string, tag: string, fates: seq<(Fate, Fate)>, k: nat)
    requires k < |fates| && LostBefore(fates, k) && BothDelivered(fates, k)
    ensures forall m :: 0 <= m < k ==> AnswerAt(issues, topic, tag, fates, m).Transient?
    ensures AnswerAt(issues, topic, tag, fates, k).Success?
  {
    forall m | 0 <= m < k ensures AnswerAt(issues, topic, tag, fates, m).Transient? {
      CallAnswers(AfterCalls(issues, topic, tag, fates, m), topic, tag, fates[m].0, fates[m].1);
    }
    CallAnswers(AfterCalls(issues, topic, tag, fates, k), topic, tag, fates[k].0, fates[k].1);
  }

  predicate NoEmptySearch(fates: seq<(Fate, Fate)>) {
    forall k :: 0 <= k < |fates| ==> !fates[k].0.Empty?
  }

  // ----- many requests, exchange by exchange -----

  /** A worker between its search, which found nothing, and its creation. */
  datatype Caller = Caller(worker: nat, request: string)

  datatype Ticketed = Ticketed(request: string, issue: nat)

  datatype State = State(issues: seq<Issue>, searched: set<Caller>, returned: seq<Ticketed>)

  /** Retries and re-drives are further searches; a crash drops the caller; other people open issues too. */
  datatype Step = Search(who: Caller, fate: Fate) | Post(who: Caller, topic: string, fate: Fate) | Crash(who: Caller)
                | Foreign(labels: seq<string>)

  predicate Ours(tag: string) { "req-" <= tag }

  predicate Legal(s: State, step: Step) {
    match step
    case Search(who, _) => who !in s.searched
    case Post(who, topic, _) => who in s.searched && IsTopic(topic)
    case Crash(_) => true
    case Foreign(labels) => forall l :: l in labels ==> !Ours(l)
  }

  function Apply(s: State, step: Step): State {
    match step
    case Search(who, f) =>
      (match SearchAnswer(s.issues, N.TicketKey(who.request), f)
       case Success(Some(i)) => s.(returned := s.returned + [Ticketed(who.request, i)])
       case Success(None) => s.(searched := s.searched + {who})
       case _ => s)
    case Post(who, topic, f) =>
      State(AfterPost(s.issues, topic, N.TicketKey(who.request), f), s.searched - {who},
            s.returned + (if f.Delivered? then [Ticketed(who.request, |s.issues|)] else []))
    case Crash(who) => s.(searched := s.searched - {who})
    case Foreign(labels) => s.(issues := s.issues + [Issue(labels)])
  }

  /** Drives of one request follow one another. */
  predicate TakesTurns(s: State, step: Step, id: string) {
    step.Search? && step.who.request == id ==> forall c :: c in s.searched ==> c.request != id
  }

  predicate SeesEarlierCreates(step: Step, id: string) {
    !(step.Search? && step.who.request == id && step.fate.Empty?)
  }

  predicate Runs(s: State, steps: seq<Step>, id: string) {
    steps == []
    || (Runs(s, steps[..|steps| - 1], id)
        && Legal(Run(s, steps[..|steps| - 1]), steps[|steps| - 1])
        && TakesTurns(Run(s, steps[..|steps| - 1]), steps[|steps| - 1], id)
        && SeesEarlierCreates(steps[|steps| - 1], id))
  }

  function Run(s: State, steps: seq<Step>): State {
    if steps == [] then s else Apply(Run(s, steps[..|steps| - 1]), steps[|steps| - 1])
  }

  predicate Start(s: State, id: string) {
    s.searched == {} && s.returned == [] && HowMany(s.issues, N.TicketKey(id)) <= 1
  }

  ghost predicate Waiting(s: State, id: string) {
    exists c :: c in s.searched && c.request == id
  }

  ghost predicate AtMostOneWaits(s: State, id: string) {
    forall c, d :: c in s.searched && d in s.searched && c.request == id && d.request == id ==> c == d
  }

  predicate ReturnedIsLabelled(s: State, id: string) {
    forall k :: 0 <= k < |s.returned| && s.returned[k].request == id ==>
      s.returned[k].issue < |s.issues| && Carries(s.issues[s.returned[k].issue], N.TicketKey(id))
  }

  ghost predicate Inv(s: State, id: string) {
    && HowMany(s.issues, N.TicketKey(id)) <= 1
    && (Waiting(s, id) ==> HowMany(s.issues, N.TicketKey(id)) == 0)
    && AtMostOneWaits(s, id)
    && ReturnedIsLabelled(s, id)
  }

  lemma OwnLabelOnly(topic: string, id: string, other: string)
    requires IsTopic(topic)
    ensures Carries(Issue(Labels(topic, N.TicketKey(other))), N.TicketKey(id)) <==> other == id
  {
    assert topic[0] != 'r' && N.TicketKey(id)[0] == 'r';
    if other != id {
      H.KeysTellRequestsApart(other, id);
    }
  }

  lemma ForeignIsNotOurs(labels: seq<string>, id: string)
    requires forall l :: l in labels ==> !Ours(l)
    ensures !Carries(Issue(labels), N.TicketKey(id))
  {
    assert Ours(N.TicketKey(id));
  }

  lemma PostKeepsCount(s: State, step: Step, id: string)
    requires Inv(s, id) && step.Post? && Legal(s, step)
    ensures HowMany(Apply(s, step).issues, N.TicketKey(id)) <= 1
    ensures step.who.request != id ==>
              HowMany(Apply(s, step).issues, N.TicketKey(id)) == HowMany(s.issues, N.TicketKey(id))
  {
    HowManyExtended(s.issues, Issue(Labels(step.topic, N.TicketKey(step.who.request))), N.TicketKey(id));
    OwnLabelOnly(step.topic, id, step.who.request);
  }

  lemma PostKeepsReturned(s: State, step: Step, id: string)
    requires ReturnedIsLabelled(s, id) && step.Post? && Legal(s, step)
    ensures ReturnedIsLabelled(Apply(s, step), id)
  {
    OwnLabelOnly(step.topic, id, step.who.request);
    assert s.issues <= Apply(s, step).issues;
  }

  lemma PostKeepsInv(s: State, step: Step, id: string)
    requires Inv(s, id) && step.Post? && Legal(s, step)
    ensures Inv(Apply(s, step), id)
  {
    PostKeepsCount(s, step, id);
    PostKeepsReturned(s, step, id);
    var t := Apply(s, step);
    assert t.searched == s.searched - {step.who};
    if step.who.request == id {
      assert !Waiting(t, id);
    } else if Waiting(t, id) {
      assert Waiting(s, id);
    }
  }

  lemma SearchKeepsInv(s: State, step: Step, id: string)
    requires Inv(s, id) && step.Search? && Legal(s, step) && TakesTurns(s, step, id) && SeesEarlierCreates(step, id)
    ensures Inv(Apply(s, step), id)
  {
    var t := Apply(s, step);
    if step.who.request != id {
      assert forall c :: c in t.searched && c.request == id ==> c in s.searched;
    }
  }

  lemma StepKeepsInv(s: State, step: Step, id: string)
    requires Inv(s, id) && Legal(s, step) && TakesTurns(s, step, id) && SeesEarlierCreates(step, id)
    ensures Inv(Apply(s, step), id)
  {
    match step
    case Search(_, _) => SearchKeepsInv(s, step, id);
    case Post(_, _, _) => PostKeepsInv(s, step, id);
    case Crash(who) =>
      assert forall c :: c in Apply(s, step).searched ==> c in s.searched;
    case Foreign(labels) =>
      HowManyExtended(s.issues, Issue(labels), N.TicketKey(id));
      ForeignIsNotOurs(labels, id);
  }

  lemma {:induction false} RunKeepsInv(s: State, steps: seq<Step>, id: string)
    requires Start(s, id) && Runs(s, steps, id)
    ensures Inv(Run(s, steps), id)
  {
    if steps != [] {
      RunKeepsInv(s, steps[..|steps| - 1], id);
      StepKeepsInv(Run(s, steps[..|steps| - 1]), steps[|steps| - 1], id);
    }
  }

  /** Exactly once: however the exchanges of all requests interleave and whatever the channel loses, a request whose
      own drives take turns has one issue at most, and all its successful calls return that issue. */
  lemma OneIssuePerRequest(s: State, steps: seq<Step>, id: string, a: nat, b: nat)
    requires Start(s, id) && Runs(s, steps, id)
    requires a < |Run(s, steps).returned| && b < |Run(s, steps).returned|
    requires Run(s, steps).returned[a].request == id && Run(s, steps).returned[b].request == id
    ensures HowMany(Run(s, steps).issues, N.TicketKey(id)) == 1
    ensures Run(s, steps).returned[a].issue == Run(s, steps).returned[b].issue
    ensures Find(Run(s, steps).issues, N.TicketKey(id)) == Some(Run(s, steps).returned[a].issue)
  {
    RunKeepsInv(s, steps, id);
    var t := Run(s, steps);
    CarrierCounts(t.issues, t.returned[a].issue, N.TicketKey(id));
    CarrierIsUnique(t.issues, t.returned[a].issue, t.returned[b].issue, N.TicketKey(id));
    CarrierIsUnique(t.issues, t.returned[a].issue, Find(t.issues, N.TicketKey(id)).value, N.TicketKey(id));
  }

  predicate AllLegal(s: State, steps: seq<Step>) {
    steps == [] || (AllLegal(s, steps[..|steps| - 1]) && Legal(Run(s, steps[..|steps| - 1]), steps[|steps| - 1]))
  }

  /** How many creations of one request the server carried out. */
  function ProcessedPosts(steps: seq<Step>, id: string): nat {
    if steps == [] then 0
    else
      var last := steps[|steps| - 1];
      ProcessedPosts(steps[..|steps| - 1], id)
      + (if last.Post? && last.who.request == id && Processed(last.fate) then 1 else 0)
  }

  lemma StepAddsPosts(s: State, step: Step, id: string)
    requires Legal(s, step)
    ensures HowMany(Apply(s, step).issues, N.TicketKey(id))
            == HowMany(s.issues, N.TicketKey(id))
               + (if step.Post? && step.who.request == id && Processed(step.fate) then 1 else 0)
  {
    if step.Post? {
      HowManyExtended(s.issues, Issue(Labels(step.topic, N.TicketKey(step.who.request))), N.TicketKey(id));
      OwnLabelOnly(step.topic, id, step.who.request);
    } else if step.Foreign? {
      HowManyExtended(s.issues, Issue(step.labels), N.TicketKey(id));
      ForeignIsNotOurs(step.labels, id);
    }
  }

  /** Over all runs, with or without turns, whatever the searches saw: the labelled issues are those there were and one
      for each creation carried out, so a second one exists exactly when these are two or more. */
  lemma {:induction false} IssuesArePosts(s: State, steps: seq<Step>, id: string)
    requires AllLegal(s, steps)
    ensures HowMany(Run(s, steps).issues, N.TicketKey(id))
            == HowMany(s.issues, N.TicketKey(id)) + ProcessedPosts(steps, id)
  {
    if steps != [] {
      IssuesArePosts(s, steps[..|steps| - 1], id);
      StepAddsPosts(Run(s, steps[..|steps| - 1]), steps[|steps| - 1], id);
    }
  }

  /** A creation that is carried out although the request's issue is there. */
  predicate Duplicates(s: State, step: Step, id: string) {
    step.Post? && step.who.request == id && Processed(step.fate) && HowMany(s.issues, N.TicketKey(id)) >= 1
  }

  predicate EverDuplicates(s: State, steps: seq<Step>, id: string) {
    steps != [] && (
      EverDuplicates(s, steps[..|steps| - 1], id)
      || Duplicates(Run(s, steps[..|steps| - 1]), steps[|steps| - 1], id))
  }

  /** A caller that finds an issue never posts, so a duplicate needs a caller whose search came before the issue or did
      not see it: over all runs there are two issues if and only if such a caller's creation was carried out. */
  lemma {:induction false} SecondIssueInRunExactlyWhen(s: State, steps: seq<Step>, id: string)
    requires AllLegal(s, steps) && HowMany(s.issues, N.TicketKey(id)) <= 1
    ensures HowMany(Run(s, steps).issues, N.TicketKey(id)) > 1 <==> EverDuplicates(s, steps, id)
  {
    if steps != [] {
      SecondIssueInRunExactlyWhen(s, steps[..|steps| - 1], id);
      StepAddsPosts(Run(s, steps[..|steps| - 1]), steps[|steps| - 1], id);
    }
  }

  /** Taking turns is needed: two drives of one request at once, on a perfect channel, open two issues. */
  lemma TwoDrivesOpenTwoIssues(s: State, a: Caller, b: Caller, topic: string)
    requires a != b && a.request == b.request && a !in s.searched && b !in s.searched && IsTopic(topic)
    requires HowMany(s.issues, N.TicketKey(a.request)) == 0
    ensures var s1 := Apply(s, Search(a, Delivered));
            var s2 := Apply(s1, Search(b, Delivered));
            var s3 := Apply(s2, Post(a, topic, Delivered));
            var s4 := Apply(s3, Post(b, topic, Delivered));
            && Legal(s, Search(a, Delivered)) && Legal(s1, Search(b, Delivered))
            && Legal(s2, Post(a, topic, Delivered)) && Legal(s3, Post(b, topic, Delivered))
            && HowMany(s4.issues, N.TicketKey(a.request)) == 2
  {
    var issue := Issue(Labels(topic, N.TicketKey(a.request)));
    HowManyExtended(s.issues, issue, N.TicketKey(a.request));
    HowManyExtended(s.issues + [issue], issue, N.TicketKey(a.request));
  }

  /** The adapter's method is a search followed, when that finds nothing, by a creation. */
  lemma CallIsSearchThenPost(s: State, who: Caller, topic: string, search: Fate, post: Fate)
    requires who !in s.searched
    ensures var key := N.TicketKey(who.request);
            var one := Apply(s, Search(who, search));
            var end := if who in one.searched then Apply(one, Post(who, topic, post)) else one;
            var (r, issues) := Call(s.issues, topic, key, search, post);
            && end.issues == issues && end.searched == s.searched
            && end.returned == s.returned + (if r.Success? then [Ticketed(who.request, r.value)] else [])
  {
    var one := Apply(s, Search(who, search));
    if who in one.searched {
      assert one.searched - {who} == s.searched;
    }
  }
}
