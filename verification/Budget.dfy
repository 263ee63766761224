/** The daily cost breaker.  Amounts are whole micro-dollars; days are counted. */
module Budget {
  import opened RedisLists

  datatype Row = Row(day: nat, cost: nat)

  /** What a driver is running: nothing, the real pipeline, or the free sandbox one. */
  datatype Mode = Idle | Real | Degraded

  datatype State = State(rows: seq<Row>, drivers: seq<Mode>, today: nat)

  /** `Select` reads the spend since the start of a day it looked up on the clock beforehand, so midnight may have
      passed in between.  A run that raises or crashes has paid for its calls but records nothing. */
  datatype Step =
    | Select(driver: nat, since: nat)
    | Persist(driver: nat, costs: seq<nat>)
    | Abandon(driver: nat, costs: seq<nat>)     // the run failed or crashed; its paid calls are not recorded
    | Midnight

  function Sum(costs: seq<nat>): nat {
    if costs == [] then 0 else Sum(costs[..|costs| - 1]) + costs[|costs| - 1]
  }

  /** The spend the breaker reads. */
  function SpendSince(rows: seq<Row>, since: nat): nat {
    if rows == [] then 0
    else SpendSince(rows[..|rows| - 1], since) + (if rows[|rows| - 1].day >= since then rows[|rows| - 1].cost else 0)
  }

  /** The spend of one day. */
  function SpendOn(rows: seq<Row>, day: nat): nat {
    if rows == [] then 0
    else SpendOn(rows[..|rows| - 1], day) + (if rows[|rows| - 1].day == day then rows[|rows| - 1].cost else 0)
  }

  function RowsOf(costs: seq<nat>, day: nat): (r: seq<Row>)
    ensures |r| == |costs|
  {
    if costs == [] then [] else RowsOf(costs[..|costs| - 1], day) + [Row(day, costs[|costs| - 1])]
  }

  /** The table of usage rows. */
  class UsageLog {
    var rows: seq<Row>

    constructor ()
      ensures rows == []
    {
      rows := [];
    }

    /** One row for each usage, and their total. */
    method AddLlmCalls(costs: seq<nat>, day: nat) returns (total: nat)
      modifies this
      ensures rows == old(rows) + RowsOf(costs, day)
      ensures total == Sum(costs)
      ensures forall d :: SpendOn(rows, d) == SpendOn(old(rows), d) + (if d == day then total else 0)
    {
      var i := 0;
      total := 0;
      while i < |costs|
        invariant 0 <= i <= |costs| && total == Sum(costs[..i]) && rows == old(rows) + RowsOf(costs[..i], day)
      {
        assert costs[..i + 1][..i] == costs[..i];
        total := total + costs[i];
        rows := rows + [Row(day, costs[i])];
        i := i + 1;
      }
      assert costs[..i] == costs;
      forall d ensures SpendOn(rows, d) == SpendOn(old(rows), d) + (if d == day then total else 0) {
        RowsAddUp(old(rows), costs, day, d);
      }
    }
  }

  /** The most a run may record: nothing on the sandbox pipeline. */
  function Price(m: Mode, most: nat): nat { if m.Real? then most else 0 }

  predicate Legal(s: State, step: Step, most: nat) {
    match step
    case Select(i, since) => i < |s.drivers| && s.drivers[i].Idle? && since <= s.today
    case Persist(i, costs) => i < |s.drivers| && !s.drivers[i].Idle? && Sum(costs) <= Price(s.drivers[i], most)
    case Abandon(i, costs) => i < |s.drivers| && Sum(costs) <= Price(s.drivers[i], most)
    case Midnight => true
  }

  function Switch(drivers: seq<Mode>, i: nat, m: Mode): seq<Mode> {
    if i < |drivers| then drivers[i := m] else drivers
  }

  function Apply(s: State, step: Step, cap: int): State {
    match step
    case Select(i, since) =>
      var mode := if SpendSince(s.rows, since) >= cap then Degraded else Real;
      s.(drivers := Switch(s.drivers, i, mode))
    case Persist(i, costs) => s.(rows := s.rows + RowsOf(costs, s.today), drivers := Switch(s.drivers, i, Idle))
    case Abandon(i, _) => s.(drivers := Switch(s.drivers, i, Idle))
    case Midnight => s.(today := s.today + 1)
  }

  predicate Runs(s: State, steps: seq<Step>, cap: int, most: nat) {
    steps == []
    || (Runs(s, steps[..|steps| - 1], cap, most)
        && Legal(Run(s, steps[..|steps| - 1], cap), steps[|steps| - 1], most))
  }

  function Run(s: State, steps: seq<Step>, cap: int): State {
    if steps == [] then s else Apply(Run(s, steps[..|steps| - 1], cap), steps[|steps| - 1], cap)
  }

  ghost predicate Start(s: State, workers: nat) {
    s.rows == [] && |s.drivers| == workers && forall i :: 0 <= i < workers ==> s.drivers[i].Idle?
  }

  // ----- the bound -----

  /** What the real runs under way may still record. */
  function Pending(drivers: seq<Mode>, most: nat): nat {
    if drivers == [] then 0 else Pending(drivers[..|drivers| - 1], most) + Price(drivers[|drivers| - 1], most)
  }

  lemma {:induction false} PendingUpdated(drivers: seq<Mode>, i: nat, m: Mode, most: nat)
    requires i < |drivers|
    ensures Pending(drivers[i := m], most) == Pending(drivers, most) - Price(drivers[i], most) + Price(m, most)
  {
    var last := |drivers| - 1;
    if i < last {
      PendingUpdated(drivers[..last], i, m, most);
      assert drivers[i := m][..last] == drivers[..last][i := m];
    } else {
      assert drivers[i := m][..last] == drivers[..last];
    }
  }

  lemma {:induction false} PendingBounded(drivers: seq<Mode>, most: nat)
    ensures Pending(drivers, most) <= |drivers| * most
  {
    if drivers != [] {
      PendingBounded(drivers[..|drivers| - 1], most);
      assert |drivers| * most == (|drivers| - 1) * most + most;
    }
  }

  lemma {:induction false} RowsAddUp(rows: seq<Row>, costs: seq<nat>, day: nat, d: nat)
    ensures SpendOn(rows + RowsOf(costs, day), d) == SpendOn(rows, d) + (if d == day then Sum(costs) else 0)
  {
    if costs == [] {
      assert rows + RowsOf(costs, day) == rows;
    } else {
      var front := costs[..|costs| - 1];
      RowsAddUp(rows, front, day, d);
      var all := rows + RowsOf(costs, day);
      assert all[..|all| - 1] == rows + RowsOf(front, day);
    }
  }

  /** A look-back that starts today or earlier sees all of today's spend. */
  lemma {:induction false} SinceCoversToday(rows: seq<Row>, since: nat, today: nat)
    requires since <= today
    ensures SpendSince(rows, since) >= SpendOn(rows, today)
  {
    if rows != [] {
      SinceCoversToday(rows[..|rows| - 1], since, today);
    }
  }

  /** A look-back adds up the days from its start on; what was spent earlier does not matter. */
  lemma {:induction false} SinceAddsUpDays(rows: seq<Row>, since: nat)
    ensures SpendSince(rows, since) == SpendOn(rows, since) + SpendSince(rows, since + 1)
  {
    if rows != [] {
      SinceAddsUpDays(rows[..|rows| - 1], since);
    }
  }

  lemma {:induction false} NothingSince(rows: seq<Row>, since: nat)
    requires forall d :: d >= since ==> SpendOn(rows, d) == 0
    ensures SpendSince(rows, since) == 0
  {
    if rows != [] {
      var front, last := rows[..|rows| - 1], rows[|rows| - 1];
      forall d | d >= since ensures SpendOn(front, d) == 0 {
        assert SpendOn(rows, d) == 0;
      }
      NothingSince(front, since);
      assert last.day >= since ==> SpendOn(rows, last.day) == 0;
    }
  }

  /** With the clock read on the same day, the breaker looks at today's spend and nothing else, on every day. */
  lemma SelectsByToday(s: State, i: nat, cap: int)
    requires NothingAhead(s) && i < |s.drivers|
    ensures Apply(s, Select(i, s.today), cap).drivers
            == s.drivers[i := if SpendOn(s.rows, s.today) >= cap then Degraded else Real]
  {
    SinceAddsUpDays(s.rows, s.today);
    NothingSince(s.rows, s.today + 1);
  }

  /** If midnight passed since, it looks at yesterday's spend as well. */
  lemma SelectsByYesterdayToo(s: State, i: nat, cap: int)
    requires NothingAhead(s) && i < |s.drivers| && s.today > 0
    ensures Apply(s, Select(i, s.today - 1), cap).drivers
            == s.drivers[i := if SpendOn(s.rows, s.today - 1) + SpendOn(s.rows, s.today) >= cap then Degraded else Real]
  {
    SinceAddsUpDays(s.rows, s.today - 1);
    SinceAddsUpDays(s.rows, s.today);
    NothingSince(s.rows, s.today + 1);
  }

  /** Less than the cap when the last runs are selected, plus one full run per driver. */
  function Limit(cap: int, workers: nat, most: nat): nat { Max(cap - 1, 0) + workers * most }

  ghost predicate NothingAhead(s: State) {
    forall d :: d > s.today ==> SpendOn(s.rows, d) == 0
  }

  ghost predicate DaysBounded(s: State, limit: nat) {
    forall d :: SpendOn(s.rows, d) <= limit
  }

  ghost predicate Inv(s: State, cap: int, workers: nat, most: nat) {
    && |s.drivers| == workers
    && NothingAhead(s)
    && DaysBounded(s, Limit(cap, workers, most))
    && SpendOn(s.rows, s.today) + Pending(s.drivers, most) <= Limit(cap, workers, most)
  }

  lemma PersistKeepsInv(s: State, step: Step, cap: int, workers: nat, most: nat)
    requires step.Persist? && Legal(s, step, most) && Inv(s, cap, workers, most)
    ensures Inv(Apply(s, step, cap), cap, workers, most)
  {
    var t := Apply(s, step, cap);
    PendingUpdated(s.drivers, step.driver, Idle, most);
    forall d ensures SpendOn(t.rows, d) == SpendOn(s.rows, d) + (if d == s.today then Sum(step.costs) else 0) {
      RowsAddUp(s.rows, step.costs, s.today, d);
    }
  }

  lemma StepKeepsInv(s: State, step: Step, cap: int, workers: nat, most: nat)
    requires Legal(s, step, most) && Inv(s, cap, workers, most)
    ensures Inv(Apply(s, step, cap), cap, workers, most)
  {
    match step
    case Persist(_, _) => PersistKeepsInv(s, step, cap, workers, most);
    case Abandon(i, _) => PendingUpdated(s.drivers, i, Idle, most);
    case Midnight => PendingBounded(s.drivers, most);
    case Select(i, since) =>
      SinceCoversToday(s.rows, since, s.today);
      PendingBounded(Apply(s, step, cap).drivers, most);
      PendingUpdated(s.drivers, i, Degraded, most);
  }

  lemma {:induction false} RunKeepsInv(s: State, steps: seq<Step>, cap: int, workers: nat, most: nat)
    requires Start(s, workers) && Runs(s, steps, cap, most)
    ensures Inv(Run(s, steps, cap), cap, workers, most)
  {
    if steps == [] {
      IdleOwesNothing(s.drivers, most);
    } else {
      var front := steps[..|steps| - 1];
      RunKeepsInv(s, front, cap, workers, most);
      StepKeepsInv(Run(s, front, cap), steps[|steps| - 1], cap, workers, most);
    }
  }

  lemma {:induction false} IdleOwesNothing(drivers: seq<Mode>, most: nat)
    requires forall i :: 0 <= i < |drivers| ==> drivers[i].Idle?
    ensures Pending(drivers, most) == 0
  {
    if drivers != [] {
      IdleOwesNothing(drivers[..|drivers| - 1], most);
    }
  }

  /** No day ever overshoots the cap by more than one run of every driver, runs begun the day before included. */
  lemma DailySpendBounded(s: State, steps: seq<Step>, cap: int, workers: nat, most: nat, day: nat)
    requires Start(s, workers) && Runs(s, steps, cap, most)
    ensures SpendOn(Run(s, steps, cap).rows, day) <= Max(cap - 1, 0) + workers * most
  {
    RunKeepsInv(s, steps, cap, workers, most);
  }

  /** In every reachable state, on every day: a driver that looks gets the real pipeline if and only if that day's
      recorded spend is below the cap. */
  lemma BreakerTripsExactlyWhen(s: State, steps: seq<Step>, cap: int, workers: nat, most: nat, i: nat)
    requires Start(s, workers) && Runs(s, steps, cap, most) && i < workers
    ensures var t := Run(s, steps, cap);
            i < |t.drivers|
            && Apply(t, Select(i, t.today), cap).drivers[i]
               == if SpendOn(t.rows, t.today) >= cap then Degraded else Real
  {
    RunKeepsInv(s, steps, cap, workers, most);
    SelectsByToday(Run(s, steps, cap), i, cap);
  }

  /** A cap of zero or less lets no paid run start. */
  lemma {:induction false} NoCapNoSpend(s: State, steps: seq<Step>, cap: int, workers: nat, most: nat, day: nat)
    requires Start(s, workers) && Runs(s, steps, cap, most) && cap <= 0
    ensures SpendOn(Run(s, steps, cap).rows, day) == 0
    ensures Real !in Run(s, steps, cap).drivers
  {
    if steps != [] {
      var front := steps[..|steps| - 1];
      NoCapNoSpend(s, front, cap, workers, most, day);
      if steps[|steps| - 1].Persist? {
        RowsAddUp(Run(s, front, cap).rows, steps[|steps| - 1].costs, Run(s, front, cap).today, day);
      }
    }
  }

  // ----- the bound is met -----

  lemma OneMore(s: State, steps: seq<Step>, step: Step, cap: int, most: nat)
    requires Runs(s, steps, cap, most) && Legal(Run(s, steps, cap), step, most)
    ensures Runs(s, steps + [step], cap, most)
    ensures Run(s, steps + [step], cap) == Apply(Run(s, steps, cap), step, cap)
  {
    assert (steps + [step])[..|steps|] == steps;
  }

  ghost predicate AllIdleFrom(drivers: seq<Mode>, k: nat) {
    forall i :: k <= i < |drivers| ==> drivers[i].Idle?
  }

  ghost predicate RealBelow(drivers: seq<Mode>, k: nat) {
    k <= |drivers| && forall i :: 0 <= i < k ==> drivers[i].Real?
  }

  ghost predicate RealBetween(drivers: seq<Mode>, k: nat) {
    forall i :: k <= i < |drivers| ==> drivers[i].Real?
  }

  lemma SameDaySpend(rows: seq<Row>)
    ensures SpendSince(rows, 0) >= SpendOn(rows, 0)
    ensures (forall k :: 0 <= k < |rows| ==> rows[k].day == 0) ==> SpendSince(rows, 0) == SpendOn(rows, 0)
  {
    SinceCoversToday(rows, 0, 0);
    if rows != [] {
      SameDaySpend(rows[..|rows| - 1]);
    }
  }

  ghost predicate FirstDay(s: State, workers: nat, spent: int) {
    && s.today == 0 && |s.drivers| == workers && SpendOn(s.rows, 0) == spent
    && forall k :: 0 <= k < |s.rows| ==> s.rows[k].day == 0
  }

  lemma SumOfOne(cost: nat)
    ensures Sum([cost]) == cost
  {
    assert [cost][..0] == [];
  }

  lemma OneRow(cost: nat, day: nat)
    ensures Sum([cost]) == cost && RowsOf([cost], day) == [Row(day, cost)]
  {
    assert [cost][..0] == [];
  }

  lemma FirstDaySpends(s: State, t: State, workers: nat, spent: int, cost: nat)
    requires FirstDay(s, workers, spent) && t.rows == s.rows + RowsOf([cost], 0)
    requires t.today == s.today && |t.drivers| == |s.drivers|
    ensures FirstDay(t, workers, spent + cost)
  {
    OneRow(cost, 0);
    RowsAddUp(s.rows, [cost], 0, 0);
  }

  lemma SpendOne(s: State, steps: seq<Step>, i: nat, cap: int, workers: nat, most: nat, spent: int, cost: nat)
    requires Runs(s, steps, cap, most) && FirstDay(Run(s, steps, cap), workers, spent)
    requires i < workers && Run(s, steps, cap).drivers[i].Real? && cost <= most
    ensures Runs(s, steps + [Persist(i, [cost])], cap, most)
    ensures FirstDay(Run(s, steps + [Persist(i, [cost])], cap), workers, spent + cost)
    ensures Run(s, steps + [Persist(i, [cost])], cap).drivers == Run(s, steps, cap).drivers[i := Idle]
  {
    SumOfOne(cost);
    OneMore(s, steps, Persist(i, [cost]), cap, most);
    var t := Run(s, steps, cap);
    FirstDaySpends(t, Apply(t, Persist(i, [cost]), cap), workers, spent, cost);
  }

  lemma StartOne(s: State, steps: seq<Step>, i: nat, cap: int, workers: nat, most: nat, spent: int)
    requires Runs(s, steps, cap, most) && FirstDay(Run(s, steps, cap), workers, spent) && spent < cap
    requires i < workers && Run(s, steps, cap).drivers[i].Idle?
    ensures Runs(s, steps + [Select(i, 0)], cap, most)
    ensures FirstDay(Run(s, steps + [Select(i, 0)], cap), workers, spent)
    ensures Run(s, steps + [Select(i, 0)], cap).drivers == Run(s, steps, cap).drivers[i := Real]
  {
    SameDaySpend(Run(s, steps, cap).rows);
    OneMore(s, steps, Select(i, 0), cap, most);
  }

  ghost predicate Trickled(s: State, steps: seq<Step>, cap: int, workers: nat, most: nat, n: nat) {
    && Runs(s, steps, cap, most) && FirstDay(Run(s, steps, cap), workers, n)
    && AllIdleFrom(Run(s, steps, cap).drivers, 0)
  }

  lemma TrickleNext(s: State, steps: seq<Step>, cap: int, workers: nat, most: nat, n: nat)
    requires Trickled(s, steps, cap, workers, most, n) && n + 1 < cap && workers >= 1 && most >= 1
    ensures Trickled(s, steps + [Select(0, 0)] + [Persist(0, [1])], cap, workers, most, n + 1)
  {
    StartOne(s, steps, 0, cap, workers, most, n);
    SpendOne(s, steps + [Select(0, 0)], 0, cap, workers, most, n, 1);
  }

  /** One driver spends `n` in runs of one micro-dollar each. */
  lemma {:induction false} Trickle(s: State, cap: int, workers: nat, most: nat, n: nat) returns (steps: seq<Step>)
    requires Start(s, workers) && s.today == 0 && n < cap && workers >= 1 && most >= 1
    ensures Trickled(s, steps, cap, workers, most, n)
  {
    steps := [];
    if n > 0 {
      steps := Trickle(s, cap, workers, most, n - 1);
      TrickleNext(s, steps, cap, workers, most, n - 1);
      steps := steps + [Select(0, 0)] + [Persist(0, [1])];
    }
  }

  ghost predicate Started(s: State, steps: seq<Step>, cap: int, workers: nat, most: nat, k: nat) {
    && Runs(s, steps, cap, most) && FirstDay(Run(s, steps, cap), workers, cap - 1)
    && RealBelow(Run(s, steps, cap).drivers, k) && AllIdleFrom(Run(s, steps, cap).drivers, k)
  }

  lemma StartNext(s: State, steps: seq<Step>, cap: int, workers: nat, most: nat, k: nat)
    requires Started(s, steps, cap, workers, most, k) && k < workers
    ensures Started(s, steps + [Select(k, 0)], cap, workers, most, k + 1)
  {
    StartOne(s, steps, k, cap, workers, most, cap - 1);
  }

  /** All drivers look before any of them records. */
  lemma {:induction false} AllStart(s: State, before: seq<Step>, cap: int, workers: nat, most: nat, k: nat)
    returns (steps: seq<Step>)
    requires Started(s, before, cap, workers, most, 0) && k <= workers
    ensures Started(s, steps, cap, workers, most, k)
  {
    steps := before;
    if k > 0 {
      steps := AllStart(s, before, cap, workers, most, k - 1);
      StartNext(s, steps, cap, workers, most, k - 1);
      steps := steps + [Select(k - 1, 0)];
    }
  }

  function Times(k: nat, most: nat): nat { if k == 0 then 0 else Times(k - 1, most) + most }

  lemma {:induction false} TimesIsProduct(k: nat, most: nat)
    ensures Times(k, most) == k * most
  {
    if k > 0 {
      TimesIsProduct(k - 1, most);
      assert k * most == (k - 1) * most + most;
    }
  }

  ghost predicate Recorded(s: State, steps: seq<Step>, cap: int, workers: nat, most: nat, k: nat) {
    && Runs(s, steps, cap, most) && FirstDay(Run(s, steps, cap), workers, cap - 1 + Times(k, most))
    && RealBetween(Run(s, steps, cap).drivers, k)
  }

  lemma RecordNext(s: State, steps: seq<Step>, cap: int, workers: nat, most: nat, k: nat)
    requires Recorded(s, steps, cap, workers, most, k) && k < workers
    ensures Recorded(s, steps + [Persist(k, [most])], cap, workers, most, k + 1)
  {
    SpendOne(s, steps, k, cap, workers, most, cap - 1 + Times(k, most), most);
  }

  lemma {:induction false} AllRecord(s: State, before: seq<Step>, cap: int, workers: nat, most: nat, k: nat)
    returns (steps: seq<Step>)
    requires Recorded(s, before, cap, workers, most, 0) && k <= workers
    ensures Recorded(s, steps, cap, workers, most, k)
  {
    steps := before;
    if k > 0 {
      steps := AllRecord(s, before, cap, workers, most, k - 1);
      RecordNext(s, steps, cap, workers, most, k - 1);
      steps := steps + [Persist(k - 1, [most])];
    }
  }

  /** The bound is exact: some history of every such set-up spends that much in one day. */
  lemma BoundIsReached(s: State, cap: int, workers: nat, most: nat) returns (steps: seq<Step>)
    requires Start(s, workers) && s.today == 0 && cap >= 1 && workers >= 1 && most >= 1
    ensures Runs(s, steps, cap, most)
    ensures SpendOn(Run(s, steps, cap).rows, 0) == Max(cap - 1, 0) + workers * most
  {
    steps := Trickle(s, cap, workers, most, cap - 1);
    steps := AllStart(s, steps, cap, workers, most, workers);
    steps := AllRecord(s, steps, cap, workers, most, workers);
    TimesIsProduct(workers, most);
  }

  // ----- what is paid but not recorded -----

  /** What runs that failed or crashed on day `day` had paid for their calls. */
  function UnrecordedOn(s: State, steps: seq<Step>, cap: int, day: nat): nat {
    if steps == [] then 0
    else
      var before, last := steps[..|steps| - 1], steps[|steps| - 1];
      UnrecordedOn(s, before, cap, day)
      + (if last.Abandon? && Run(s, before, cap).today == day then Sum(last.costs) else 0)
  }

  function FailuresOn(s: State, steps: seq<Step>, cap: int, day: nat): nat {
    if steps == [] then 0
    else
      var before, last := steps[..|steps| - 1], steps[|steps| - 1];
      FailuresOn(s, before, cap, day) + (if last.Abandon? && Run(s, before, cap).today == day then 1 else 0)
  }

  /** What a day really cost. */
  function IncurredOn(s: State, steps: seq<Step>, cap: int, day: nat): nat {
    SpendOn(Run(s, steps, cap).rows, day) + UnrecordedOn(s, steps, cap, day)
  }

  lemma {:induction false} UnrecordedBounded(s: State, steps: seq<Step>, cap: int, most: nat, day: nat)
    requires Runs(s, steps, cap, most)
    ensures UnrecordedOn(s, steps, cap, day) <= FailuresOn(s, steps, cap, day) * most
  {
    if steps != [] {
      var before := steps[..|steps| - 1];
      UnrecordedBounded(s, before, cap, most, day);
      var n := FailuresOn(s, before, cap, day);
      assert (n + 1) * most == n * most + most;
    }
  }

  /** The real cost of a day is bounded by the breaker's bound and one full run for each failure of that day. */
  lemma IncurredBounded(s: State, steps: seq<Step>, cap: int, workers: nat, most: nat, day: nat)
    requires Start(s, workers) && Runs(s, steps, cap, most)
    ensures IncurredOn(s, steps, cap, day)
            <= Max(cap - 1, 0) + workers * most + FailuresOn(s, steps, cap, day) * most
  {
    DailySpendBounded(s, steps, cap, workers, most, day);
    UnrecordedBounded(s, steps, cap, most, day);
  }

  ghost predicate Bled(s: State, steps: seq<Step>, cap: int, workers: nat, most: nat, n: nat) {
    && Runs(s, steps, cap, most) && FirstDay(Run(s, steps, cap), workers, 0)
    && AllIdleFrom(Run(s, steps, cap).drivers, 0)
    && UnrecordedOn(s, steps, cap, 0) == Times(n, most)
  }

  lemma BleedNext(s: State, steps: seq<Step>, cap: int, workers: nat, most: nat, n: nat)
    requires Bled(s, steps, cap, workers, most, n) && cap >= 1 && workers >= 1
    ensures Bled(s, steps + [Select(0, 0)] + [Abandon(0, [most])], cap, workers, most, n + 1)
  {
    StartOne(s, steps, 0, cap, workers, most, 0);
    SumOfOne(most);
    var started := steps + [Select(0, 0)];
    assert started[..|steps|] == steps;
    OneMore(s, started, Abandon(0, [most]), cap, most);
    assert (started + [Abandon(0, [most])])[..|started|] == started;
  }

  /** Without counting failures there is no bound: with any positive cap, runs that fail after their paid calls cost as
      much as one likes in a day on which nothing is recorded and every driver still gets the real pipeline. */
  lemma {:induction false} FailuresEvadeTheCap(s: State, cap: int, workers: nat, most: nat, n: nat)
    returns (steps: seq<Step>)
    requires Start(s, workers) && s.today == 0 && cap >= 1 && workers >= 1
    ensures Bled(s, steps, cap, workers, most, n)
    ensures SpendOn(Run(s, steps, cap).rows, 0) == 0 && IncurredOn(s, steps, cap, 0) == n * most
  {
    steps := [];
    if n > 0 {
      steps := FailuresEvadeTheCap(s, cap, workers, most, n - 1);
      BleedNext(s, steps, cap, workers, most, n - 1);
      steps := steps + [Select(0, 0)] + [Abandon(0, [most])];
    }
    TimesIsProduct(n, most);
  }
}
