/** The fixed-window rate limiter: one counter for each identity, dropped by the store when its lifetime ends. */
module RateLimit {
  import opened RedisLists

  /** A stored counter; one whose expiry was never set lives for ever. */
  datatype Counter = Gone | Live(count: nat, expires: Option<int>)

  /** The command at which the store stops answering, if any.  A process that dies between counting and setting the
      expiry leaves what `AtExpire` leaves. */
  datatype Outage = NoOutage | AtIncr | AtExpire | AtTtl

  /** `Open`: let through because the store failed. */
  datatype Verdict = Admitted | Rejected(retryAfter: int) | Open

  datatype Settings = Settings(limit: int, window: int)

  /** One request of the identity. */
  datatype Call = Call(now: int, outage: Outage)

  predicate Alive(c: Counter, now: int) { c.Live? && (c.expires.None? || now < c.expires.value) }

  /** INCR */
  function Incremented(c: Counter, now: int): (r: Counter)
    ensures r.Live? && r.count >= 1
  {
    if Alive(c, now) then Live(c.count + 1, c.expires) else Live(1, None)
  }

  /** EXPIRE: a lifetime that is not positive drops the key at once. */
  function Expiring(c: Counter, now: int, window: int): Counter {
    if window > 0 && c.Live? then Live(c.count, Some(now + window)) else Gone
  }

  /** The counter after a request.  A counter that was just created, and only that one, gets an expiry. */
  function Counted(s: Settings, c: Counter, call: Call): Counter {
    if call.outage.AtIncr? then c
    else
      var one := Incremented(c, call.now);
      if one.count == 1 && !call.outage.AtExpire? then Expiring(one, call.now, s.window) else one
  }

  function Answer(s: Settings, c: Counter, call: Call): Verdict {
    if call.outage.AtIncr? then Open
    else
      var one := Incremented(c, call.now);
      if one.count == 1 && call.outage.AtExpire? then Open
      else if one.count <= s.limit then Admitted
      else if call.outage.AtTtl? then Open
      else
        var after := Counted(s, c, call);
        Rejected(if after.Live? && after.expires.Some? then after.expires.value - call.now else s.window)
  }

  /** A request is let through because of the store exactly when a command it issues fails; any other answer is the
      one a healthy store would have given, and that one admits while fewer than the limit were counted before. */
  lemma FailsOpenExactlyWhen(s: Settings, c: Counter, now: int, outage: Outage)
    requires c.Live? ==> c.count >= 1
    ensures var v, healthy := Answer(s, c, Call(now, outage)), Answer(s, c, Call(now, NoOutage));
            && (v.Open? <==>
                  outage.AtIncr? || (outage.AtExpire? && !Alive(c, now)) || (outage.AtTtl? && healthy.Rejected?))
            && (!v.Open? ==> v == healthy)
            && (healthy.Admitted? <==> (if Alive(c, now) then c.count else 0) < s.limit)
  {
  }

  function Lookup(counters: map<string, Counter>, identity: string): Counter {
    if identity in counters then counters[identity] else Gone
  }

  class RateLimiter {
    const settings: Settings
    var counters: map<string, Counter>

    constructor (settings: Settings)
      ensures this.settings == settings && counters == map[]
    {
      this.settings, counters := settings, map[];
    }

    /** Counts one request; identities do not share a budget. */
    method Check(identity: string, call: Call) returns (v: Verdict)
      modifies this
      ensures Lookup(counters, identity) == Counted(settings, old(Lookup(counters, identity)), call)
      ensures v == Answer(settings, old(Lookup(counters, identity)), call)
      ensures forall other :: other != identity ==> Lookup(counters, other) == old(Lookup(counters, other))
    {
      if call.outage.AtIncr? {
        return Open;
      }
      var current := 1;
      var expires := None;
      if Alive(Lookup(counters, identity), call.now) {
        current := counters[identity].count + 1;
        expires := counters[identity].expires;
      }
      counters := counters[identity := Live(current, expires)];
      if current == 1 {
        if call.outage.AtExpire? {
          return Open;
        }
        counters := counters[identity := Expiring(counters[identity], call.now, settings.window)];
      }
      if current > settings.limit {
        if call.outage.AtTtl? {
          return Open;
        }
        var stored := counters[identity];
        var ttl := if stored.Live? && stored.expires.Some? then stored.expires.value - call.now else -1;
        return Rejected(if ttl > 0 then ttl else settings.window);
      }
      v := Admitted;
    }
  }

  // ----- traces of one identity -----

  function After(s: Settings, start: Counter, calls: seq<Call>): Counter {
    if calls == [] then start
    else Counted(s, After(s, start, calls[..|calls| - 1]), calls[|calls| - 1])
  }

  function LastAnswer(s: Settings, start: Counter, calls: seq<Call>): Verdict
    requires calls != []
  {
    Answer(s, After(s, start, calls[..|calls| - 1]), calls[|calls| - 1])
  }

  predicate InOrder(calls: seq<Call>) {
    |calls| < 2 || (InOrder(calls[..|calls| - 1]) && calls[|calls| - 2].now <= calls[|calls| - 1].now)
  }

  /** Requests at times in `[from, to)` that the counter let through. */
  function AdmittedIn(s: Settings, calls: seq<Call>, from: int, to: int): nat {
    if calls == [] then 0
    else
      AdmittedIn(s, calls[..|calls| - 1], from, to)
      + (if from <= calls[|calls| - 1].now < to && LastAnswer(s, Gone, calls).Admitted? then 1 else 0)
  }

  function Allowance(s: Settings): nat { Max(s.limit, 0) }

  /** How much of its allowance a counter has given out. */
  function Used(s: Settings, c: Counter): nat {
    if c.Gone? then 0 else if c.count < Allowance(s) then c.count else Allowance(s)
  }

  // ----- any interval of one window -----

  /** What one interval can let through: the first request of the earlier lifetime fell before it. */
  function Burst(s: Settings): nat { if s.limit >= 1 then 2 * s.limit - 1 else 0 }

  /** Before the interval nothing was admitted in it; a lifetime that began before it accounts for all that was; one
      that began inside it adds to what was left of the earlier one, and outlives the interval. */
  predicate Inv(s: Settings, calls: seq<Call>, from: int) {
    var admitted := AdmittedIn(s, calls, from, from + s.window);
    var c := After(s, Gone, calls);
    if calls == [] || calls[|calls| - 1].now < from then admitted == 0
    else if calls[|calls| - 1].now >= from + s.window then admitted <= Burst(s)
    else if c.Gone? then admitted == 0
    else if c.expires.Some? && c.expires.value - s.window < from then admitted <= Max(Used(s, c) - 1, 0)
    else admitted <= Max(Allowance(s) - 1, 0) + Used(s, c)
  }

  lemma CallKeepsInv(s: Settings, calls: seq<Call>, from: int)
    requires calls != [] && InOrder(calls) && Inv(s, calls[..|calls| - 1], from)
    ensures Inv(s, calls, from)
  {
  }

  lemma {:induction false} CallsKeepInv(s: Settings, calls: seq<Call>, from: int)
    requires InOrder(calls)
    ensures Inv(s, calls, from)
  {
    if calls != [] {
      CallsKeepInv(s, calls[..|calls| - 1], from);
      CallKeepsInv(s, calls, from);
    }
  }

  /** Wherever an interval of one window length is laid, fewer than two allowances are let through in it, whatever
      the store does. */
  lemma WindowAdmitsLessThanTwice(s: Settings, calls: seq<Call>, from: int)
    requires InOrder(calls)
    ensures AdmittedIn(s, calls, from, from + s.window) <= Burst(s)
  {
    CallsKeepInv(s, calls, from);
  }

  function Repeated(call: Call, n: nat): (r: seq<Call>)
    ensures |r| == n && forall k :: 0 <= k < n ==> r[k] == call
  {
    if n == 0 then [] else Repeated(call, n - 1) + [call]
  }

  lemma AliveAdmitsOne(s: Settings, calls: seq<Call>, now: int, from: int)
    requires calls != [] && InOrder(calls) && calls[|calls| - 1].now <= now
    requires Alive(After(s, Gone, calls), now) && 1 <= After(s, Gone, calls).count < s.limit
    requires from <= now < from + s.window
    ensures var all := calls + [Call(now, NoOutage)];
            var c := After(s, Gone, calls);
            && InOrder(all) && After(s, Gone, all) == Live(c.count + 1, c.expires)
            && AdmittedIn(s, all, from, from + s.window) == AdmittedIn(s, calls, from, from + s.window) + 1
  {
    assert (calls + [Call(now, NoOutage)])[..|calls|] == calls;
  }

  predicate BurstEnds(s: Settings, calls: seq<Call>, all: seq<Call>, now: int, n: nat, from: int)
    requires After(s, Gone, calls).Live?
  {
    var c := After(s, Gone, calls);
    && all != [] && InOrder(all) && all[|all| - 1].now <= now
    && After(s, Gone, all) == Live(c.count + n, c.expires)
    && AdmittedIn(s, all, from, from + s.window) == AdmittedIn(s, calls, from, from + s.window) + n
  }

  /** The counter is alive at `now`, with room for `n` more requests, and `now` is inside the interval. */
  predicate Room(s: Settings, calls: seq<Call>, now: int, n: nat, from: int) {
    var c := After(s, Gone, calls);
    && calls != [] && InOrder(calls) && calls[|calls| - 1].now <= now
    && Alive(c, now) && 1 <= c.count && c.count + n <= s.limit && from <= now < from + s.window
  }

  lemma BurstGrows(s: Settings, calls: seq<Call>, all: seq<Call>, now: int, n: nat, from: int)
    requires Room(s, calls, now, n + 1, from) && BurstEnds(s, calls, all, now, n, from)
    ensures BurstEnds(s, calls, all + [Call(now, NoOutage)], now, n + 1, from)
  {
    AliveAdmitsOne(s, all, now, from);
  }

  lemma {:induction false} AliveAdmits(s: Settings, calls: seq<Call>, now: int, n: nat, from: int)
    requires Room(s, calls, now, n, from)
    ensures BurstEnds(s, calls, calls + Repeated(Call(now, NoOutage), n), now, n, from)
  {
    var call := Call(now, NoOutage);
    if n == 0 {
      assert calls + Repeated(call, n) == calls;
    } else {
      AliveAdmits(s, calls, now, n - 1, from);
      BurstGrows(s, calls, calls + Repeated(call, n - 1), now, n - 1, from);
      assert calls + Repeated(call, n) == calls + Repeated(call, n - 1) + [call];
    }
  }

  lemma EndOfLifetime(s: Settings) returns (late: seq<Call>)
    requires s.limit >= 1 && s.window >= 2
    ensures late != [] && InOrder(late) && late[|late| - 1].now <= s.window - 1
    ensures After(s, Gone, late) == Live(s.limit, Some(s.window))
    ensures AdmittedIn(s, late, s.window - 1, s.window - 1 + s.window) == s.limit - 1
  {
    var first := [Call(0, NoOutage)];
    assert first[..0] == [];
    assert After(s, Gone, first) == Live(1, Some(s.window));
    assert AdmittedIn(s, first, s.window - 1, s.window - 1 + s.window) == 0;
    AliveAdmits(s, first, s.window - 1, s.limit - 1, s.window - 1);
    late := first + Repeated(Call(s.window - 1, NoOutage), s.limit - 1);
  }

  lemma NextLifetime(s: Settings, late: seq<Call>)
    requires s.limit >= 1 && s.window >= 2
    requires late != [] && InOrder(late) && late[|late| - 1].now <= s.window - 1
    requires After(s, Gone, late) == Live(s.limit, Some(s.window))
    ensures var next := late + [Call(s.window, NoOutage)];
            && InOrder(next) && After(s, Gone, next) == Live(1, Some(s.window + s.window))
            && AdmittedIn(s, next, s.window - 1, s.window - 1 + s.window)
               == AdmittedIn(s, late, s.window - 1, s.window - 1 + s.window) + 1
  {
    assert (late + [Call(s.window, NoOutage)])[..|late|] == late;
  }

  /** The bound is exact: requests just before and just after a lifetime ends meet it. */
  lemma BurstIsReached(s: Settings) returns (calls: seq<Call>)
    requires s.limit >= 1 && s.window >= 2
    ensures InOrder(calls)
    ensures AdmittedIn(s, calls, s.window - 1, s.window - 1 + s.window) == Burst(s)
  {
    var late := EndOfLifetime(s);
    NextLifetime(s, late);
    var next := late + [Call(s.window, NoOutage)];
    AliveAdmits(s, next, s.window, s.limit - 1, s.window - 1);
    calls := next + Repeated(Call(s.window, NoOutage), s.limit - 1);
  }

  // ----- one lifetime -----

  /** A request that creates the counter. */
  predicate Creates(s: Settings, calls: seq<Call>)
    requires calls != []
  {
    !calls[|calls| - 1].outage.AtIncr?
    && !Alive(After(s, Gone, calls[..|calls| - 1]), calls[|calls| - 1].now)
  }

  /** Lifetimes begun so far; the last of them is the current one. */
  function Lifetimes(s: Settings, calls: seq<Call>): nat {
    if calls == [] then 0
    else Lifetimes(s, calls[..|calls| - 1]) + (if Creates(s, calls) then 1 else 0)
  }

  function AdmittedDuring(s: Settings, calls: seq<Call>, lifetime: nat): nat {
    if calls == [] then 0
    else
      AdmittedDuring(s, calls[..|calls| - 1], lifetime)
      + (if Lifetimes(s, calls) == lifetime && LastAnswer(s, Gone, calls).Admitted? then 1 else 0)
  }

  predicate WithinAllowance(s: Settings, calls: seq<Call>, lifetime: nat) {
    var given := AdmittedDuring(s, calls, lifetime);
    if lifetime > Lifetimes(s, calls) then given == 0
    else if lifetime == Lifetimes(s, calls) && After(s, Gone, calls).Live? then given <= Used(s, After(s, Gone, calls))
    else given <= Allowance(s)
  }

  lemma {:induction false} LifetimeKeepsAllowance(s: Settings, calls: seq<Call>, lifetime: nat)
    ensures WithinAllowance(s, calls, lifetime)
  {
    if calls != [] {
      LifetimeKeepsAllowance(s, calls[..|calls| - 1], lifetime);
    }
  }

  /** One lifetime of the counter lets through its allowance at most, in whatever order the clock readings come. */
  lemma LifetimeAdmitsLimit(s: Settings, calls: seq<Call>, lifetime: nat)
    ensures AdmittedDuring(s, calls, lifetime) <= Max(s.limit, 0)
  {
    LifetimeKeepsAllowance(s, calls, lifetime);
  }

  // ----- coming back -----

  predicate AllBefore(calls: seq<Call>, t: int) {
    forall k :: 0 <= k < |calls| ==> calls[k].now < t
  }

  /** Requests during a lifetime, let through or not, never lengthen it. */
  lemma {:induction false} LifetimeNotExtended(s: Settings, c: Counter, calls: seq<Call>)
    requires c.Live? && c.count >= 1 && (c.expires.None? || AllBefore(calls, c.expires.value))
    ensures After(s, c, calls).Live? && After(s, c, calls).expires == c.expires
    ensures After(s, c, calls).count >= c.count
  {
    if calls != [] {
      assert c.expires.Some? ==> AllBefore(calls[..|calls| - 1], c.expires.value);
      LifetimeNotExtended(s, c, calls[..|calls| - 1]);
    }
  }

  /** A rejected caller that waits as told is let through, however often others of its identity tried meanwhile,
      exactly when the counter has an expiry. */
  lemma WaitingAsToldIsAdmitted(s: Settings, c: Counter, rejected: Call, between: seq<Call>, back: Call)
    requires Answer(s, c, rejected).Rejected? && s.limit >= 1 && (c.Live? ==> c.count >= 1)
    requires AllBefore(between, rejected.now + Answer(s, c, rejected).retryAfter)
    requires back.now >= rejected.now + Answer(s, c, rejected).retryAfter && back.outage.NoOutage?
    ensures Answer(s, After(s, Counted(s, c, rejected), between), back).Admitted?
            <==> Counted(s, c, rejected).Live? && Counted(s, c, rejected).expires.Some?
  {
    var held := Counted(s, c, rejected);
    LifetimeNotExtended(s, held, between);
  }

  /** The reported wait is exact: whoever comes back earlier is told how much of it is left. */
  lemma ComingBackEarlyIsRejected(s: Settings, c: Counter, rejected: Call, between: seq<Call>, back: Call)
    requires Answer(s, c, rejected).Rejected? && s.limit >= 1 && (c.Live? ==> c.count >= 1)
    requires Counted(s, c, rejected).Live? && Counted(s, c, rejected).expires.Some?
    requires AllBefore(between, rejected.now + Answer(s, c, rejected).retryAfter)
    requires back.now < rejected.now + Answer(s, c, rejected).retryAfter && back.outage.NoOutage?
    ensures Answer(s, After(s, Counted(s, c, rejected), between), back)
            == Rejected(rejected.now + Answer(s, c, rejected).retryAfter - back.now)
  {
    LifetimeNotExtended(s, Counted(s, c, rejected), between);
  }

  /** A counter whose expiry was lost never lets its identity in again once its allowance is used. */
  lemma LostExpiryLocksOut(s: Settings, c: Counter, calls: seq<Call>)
    requires c.Live? && c.expires.None? && c.count >= s.limit && c.count >= 1
    requires calls != [] && calls[|calls| - 1].outage.NoOutage?
    ensures LastAnswer(s, c, calls) == Rejected(s.window)
  {
    LifetimeNotExtended(s, c, calls[..|calls| - 1]);
  }

  /** The request that created the counter's current lifetime could not set its expiry. */
  predicate CreatorFailed(s: Settings, calls: seq<Call>) {
    calls != [] && (
      if Creates(s, calls) then calls[|calls| - 1].outage.AtExpire?
      else CreatorFailed(s, calls[..|calls| - 1]))
  }

  /** A counter is without expiry exactly when the request that created it failed between the two commands. */
  lemma {:induction false} ExpiryLostExactlyWhen(s: Settings, calls: seq<Call>)
    ensures After(s, Gone, calls).Live? && After(s, Gone, calls).expires.None? <==> CreatorFailed(s, calls)
    ensures After(s, Gone, calls).Live? ==> After(s, Gone, calls).count >= 1
  {
    if calls != [] {
      ExpiryLostExactlyWhen(s, calls[..|calls| - 1]);
    }
  }

  /** Every later request that the store answers is rejected. */
  ghost predicate LockedOut(s: Settings, c: Counter) {
    forall call: Call :: call.outage.NoOutage? ==> Answer(s, c, call).Rejected?
  }

  /** Over any history: an identity is locked out for good if and only if the request that created its counter failed
      between counting and setting the expiry, and the allowance has been used since. */
  lemma LockedOutExactlyWhen(s: Settings, calls: seq<Call>)
    requires s.limit >= 1
    ensures LockedOut(s, After(s, Gone, calls))
            <==> CreatorFailed(s, calls) && After(s, Gone, calls).Live? && After(s, Gone, calls).count >= s.limit
  {
    var c := After(s, Gone, calls);
    ExpiryLostExactlyWhen(s, calls);
    var late := Call(if c.Live? && c.expires.Some? then c.expires.value else 0, NoOutage);
    if LockedOut(s, c) {
      assert Answer(s, c, late).Rejected?;
    }
  }
}
