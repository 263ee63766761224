/** The spend report: one pass over the usage rows fills three indexes. */
module CostReport {
  import opened RedisLists

  datatype Name = Name(text: string)

  /** Costs in whole micro-dollars; `day` is the date of the row's timestamp. */
  datatype Row = Row(model: Name, day: Name, requestType: Option<Name>, cost: nat, tokensIn: nat, tokensOut: nat)

  datatype Bucket = Bucket(calls: nat, cost: nat, tokensIn: nat, tokensOut: nat)

  datatype Report = Report(
    calls: nat,
    total: nat,
    byModel: map<Name, Bucket>,
    byDay: map<Name, nat>,
    byType: map<Name, nat>)

  datatype Index = ByModel | ByDay | ByType

  /** A missing or empty request type is filed under "unknown". */
  function KeyOf(row: Row, index: Index): Name {
    match index
    case ByModel => row.model
    case ByDay => row.day
    case ByType =>
      if row.requestType.None? || row.requestType.value.text == "" then Name("unknown")
      else row.requestType.value
  }

  datatype Measure = Calls | Cost | TokensIn | TokensOut

  function Amount(row: Row, measure: Measure): nat {
    match measure
    case Calls => 1
    case Cost => row.cost
    case TokensIn => row.tokensIn
    case TokensOut => row.tokensOut
  }

  /** The plain sum over the rows. */
  function Sum(rows: seq<Row>, measure: Measure): nat {
    if rows == [] then 0 else Sum(rows[..|rows| - 1], measure) + Amount(rows[|rows| - 1], measure)
  }

  /** The rows filed under one key, in order. */
  function Filed(rows: seq<Row>, index: Index, key: Name): seq<Row> {
    if rows == [] then []
    else
      Filed(rows[..|rows| - 1], index, key)
      + (if KeyOf(rows[|rows| - 1], index) == key then [rows[|rows| - 1]] else [])
  }

  function Slice(rows: seq<Row>, index: Index, key: Name, measure: Measure): nat {
    Sum(Filed(rows, index, key), measure)
  }

  lemma SliceExtended(rows: seq<Row>, row: Row, index: Index, key: Name, measure: Measure)
    ensures Slice(rows + [row], index, key, measure)
            == Slice(rows, index, key, measure) + (if KeyOf(row, index) == key then Amount(row, measure) else 0)
  {
    assert (rows + [row])[..|rows|] == rows;
    var before := Filed(rows, index, key);
    if KeyOf(row, index) == key {
      assert (before + [row])[..|before|] == before;
    } else {
      assert before + [] == before;
    }
  }

  lemma UnusedIsEmpty(rows: seq<Row>, index: Index, key: Name, measure: Measure)
    requires Filed(rows, index, key) == []
    ensures Slice(rows, index, key, measure) == 0
  {
  }

  function BucketOf(rows: seq<Row>, key: Name): Bucket {
    Bucket(Slice(rows, ByModel, key, Calls), Slice(rows, ByModel, key, Cost),
           Slice(rows, ByModel, key, TokensIn), Slice(rows, ByModel, key, TokensOut))
  }

  /** One more row counts once and adds its own cost and tokens, each in its own column. */
  lemma SumOneMore(rows: seq<Row>, row: Row)
    ensures Sum(rows + [row], Calls) == Sum(rows, Calls) + 1
    ensures Sum(rows + [row], Cost) == Sum(rows, Cost) + row.cost
    ensures Sum(rows + [row], TokensIn) == Sum(rows, TokensIn) + row.tokensIn
    ensures Sum(rows + [row], TokensOut) == Sum(rows, TokensOut) + row.tokensOut
  {
    assert (rows + [row])[..|rows|] == rows;
  }

  function CostOfType(rows: seq<Row>, requestType: Option<Name>): nat {
    if rows == [] then 0
    else
      CostOfType(rows[..|rows| - 1], requestType)
      + (if rows[|rows| - 1].requestType == requestType then rows[|rows| - 1].cost else 0)
  }

  function CostOfModel(rows: seq<Row>, model: Name): nat {
    if rows == [] then 0
    else CostOfModel(rows[..|rows| - 1], model) + (if rows[|rows| - 1].model == model then rows[|rows| - 1].cost else 0)
  }

  function CostOfDay(rows: seq<Row>, day: Name): nat {
    if rows == [] then 0
    else CostOfDay(rows[..|rows| - 1], day) + (if rows[|rows| - 1].day == day then rows[|rows| - 1].cost else 0)
  }

  lemma {:induction false} NamedTypeSlice(rows: seq<Row>, key: Name)
    requires key.text != "" && key.text != "unknown"
    ensures Slice(rows, ByType, key, Cost) == CostOfType(rows, Some(key))
  {
    if rows != [] {
      var front, row := rows[..|rows| - 1], rows[|rows| - 1];
      assert rows == front + [row];
      NamedTypeSlice(front, key);
      SliceExtended(front, row, ByType, key, Cost);
    }
  }

  lemma {:induction false} UnknownTypeSlice(rows: seq<Row>, unknown: Name, empty: Name)
    requires unknown.text == "unknown" && empty.text == ""
    ensures Slice(rows, ByType, unknown, Cost)
            == CostOfType(rows, None) + CostOfType(rows, Some(empty)) + CostOfType(rows, Some(unknown))
    ensures Slice(rows, ByType, empty, Cost) == 0
  {
    if rows != [] {
      var front, row := rows[..|rows| - 1], rows[|rows| - 1];
      assert rows == front + [row];
      UnknownTypeSlice(front, unknown, empty);
      SliceExtended(front, row, ByType, unknown, Cost);
      SliceExtended(front, row, ByType, empty, Cost);
    }
  }

  lemma {:induction false} ModelAndDaySlices(rows: seq<Row>, key: Name)
    ensures Slice(rows, ByModel, key, Cost) == CostOfModel(rows, key)
    ensures Slice(rows, ByDay, key, Cost) == CostOfDay(rows, key)
  {
    if rows != [] {
      var front, row := rows[..|rows| - 1], rows[|rows| - 1];
      assert rows == front + [row];
      ModelAndDaySlices(front, key);
      SliceExtended(front, row, ByModel, key, Cost);
      SliceExtended(front, row, ByDay, key, Cost);
    }
  }

  /** A proper type has the cost of its own rows; "unknown" that of the rows without a type or with an empty one (and
      of rows that say so themselves); nothing is filed under the empty name.  Models and days have their own rows. */
  lemma SlicesByColumn(rows: seq<Row>, key: Name)
    ensures key.text != "" && key.text != "unknown" ==> Slice(rows, ByType, key, Cost) == CostOfType(rows, Some(key))
    ensures Slice(rows, ByType, Name("unknown"), Cost)
            == CostOfType(rows, None) + CostOfType(rows, Some(Name(""))) + CostOfType(rows, Some(Name("unknown")))
    ensures Slice(rows, ByType, Name(""), Cost) == 0
    ensures Slice(rows, ByModel, key, Cost) == CostOfModel(rows, key)
    ensures Slice(rows, ByDay, key, Cost) == CostOfDay(rows, key)
  {
    if key.text != "" && key.text != "unknown" { NamedTypeSlice(rows, key); }
    UnknownTypeSlice(rows, Name("unknown"), Name(""));
    ModelAndDaySlices(rows, key);
  }

  predicate Used(rows: seq<Row>, index: Index, key: Name) {
    Filed(rows, index, key) != []
  }

  ghost predicate ModelsRight(rows: seq<Row>, m: map<Name, Bucket>) {
    && (forall k :: k in m <==> Used(rows, ByModel, k))
    && (forall k :: k in m ==> m[k] == BucketOf(rows, k))
  }

  ghost predicate CostsRight(rows: seq<Row>, index: Index, m: map<Name, nat>) {
    && (forall k :: k in m <==> Used(rows, index, k))
    && (forall k :: k in m ==> m[k] == Slice(rows, index, k, Cost))
  }

  /** The bucket of a model, with one more row in it. */
  function Added(m: map<Name, Bucket>, row: Row): Bucket {
    if row.model in m then
      var b := m[row.model];
      Bucket(b.calls + 1, b.cost + row.cost, b.tokensIn + row.tokensIn, b.tokensOut + row.tokensOut)
    else Bucket(1, row.cost, row.tokensIn, row.tokensOut)
  }

  function CostAt(m: map<Name, nat>, k: Name): nat { if k in m then m[k] else 0 }

  lemma CostExtended(rows: seq<Row>, row: Row, index: Index, k: Name)
    ensures KeyOf(row, index) != k ==> Slice(rows + [row], index, k, Cost) == Slice(rows, index, k, Cost)
    ensures KeyOf(row, index) == k ==> Slice(rows + [row], index, k, Cost) == Slice(rows, index, k, Cost) + row.cost
    ensures Used(rows + [row], index, k) <==> KeyOf(row, index) == k || Used(rows, index, k)
  {
    assert (rows + [row])[..|rows|] == rows;
    SliceExtended(rows, row, index, k, Cost);
  }

  lemma BucketExtended(rows: seq<Row>, row: Row, k: Name)
    ensures row.model != k ==> BucketOf(rows + [row], k) == BucketOf(rows, k)
    ensures Used(rows + [row], ByModel, k) <==> row.model == k || Used(rows, ByModel, k)
  {
    assert (rows + [row])[..|rows|] == rows;
    SliceExtended(rows, row, ByModel, k, Calls);
    SliceExtended(rows, row, ByModel, k, Cost);
    SliceExtended(rows, row, ByModel, k, TokensIn);
    SliceExtended(rows, row, ByModel, k, TokensOut);
  }

  lemma BucketAdded(rows: seq<Row>, row: Row, m: map<Name, Bucket>)
    requires row.model in m <==> Used(rows, ByModel, row.model)
    requires row.model in m ==> m[row.model] == BucketOf(rows, row.model)
    ensures Added(m, row) == BucketOf(rows + [row], row.model)
  {
    SliceExtended(rows, row, ByModel, row.model, Calls);
    SliceExtended(rows, row, ByModel, row.model, Cost);
    SliceExtended(rows, row, ByModel, row.model, TokensIn);
    SliceExtended(rows, row, ByModel, row.model, TokensOut);
  }

  lemma ModelsKept(rows: seq<Row>, row: Row, m: map<Name, Bucket>)
    requires ModelsRight(rows, m)
    ensures ModelsRight(rows + [row], m[row.model := Added(m, row)])
  {
    BucketAdded(rows, row, m);
    forall k ensures row.model != k ==> BucketOf(rows + [row], k) == BucketOf(rows, k)
             ensures Used(rows + [row], ByModel, k) <==> row.model == k || Used(rows, ByModel, k)
    {
      BucketExtended(rows, row, k);
    }
  }

  lemma CostsKept(rows: seq<Row>, row: Row, index: Index, m: map<Name, nat>)
    requires CostsRight(rows, index, m)
    ensures CostsRight(rows + [row], index, m[KeyOf(row, index) := CostAt(m, KeyOf(row, index)) + row.cost])
  {
    var key := KeyOf(row, index);
    CostExtended(rows, row, index, key);
    if key !in m {
      UnusedIsEmpty(rows, index, key, Cost);
    }
    forall k ensures key != k ==> Slice(rows + [row], index, k, Cost) == Slice(rows, index, k, Cost)
             ensures Used(rows + [row], index, k) <==> key == k || Used(rows, index, k)
    {
      CostExtended(rows, row, index, k);
    }
  }

  function ModelIndex(rows: seq<Row>): map<Name, Bucket> {
    if rows == [] then map[]
    else
      var row := rows[|rows| - 1];
      var before := ModelIndex(rows[..|rows| - 1]);
      before[row.model := Added(before, row)]
  }

  function CostIndex(rows: seq<Row>, index: Index): map<Name, nat> {
    if rows == [] then map[]
    else
      var row := rows[|rows| - 1];
      var before := CostIndex(rows[..|rows| - 1], index);
      before[KeyOf(row, index) := CostAt(before, KeyOf(row, index)) + row.cost]
  }

  lemma {:induction false} ModelIndexIsRight(rows: seq<Row>)
    ensures ModelsRight(rows, ModelIndex(rows))
  {
    if rows != [] {
      var front := rows[..|rows| - 1];
      ModelIndexIsRight(front);
      ModelsKept(front, rows[|rows| - 1], ModelIndex(front));
      assert rows == front + [rows[|rows| - 1]];
    }
  }

  lemma {:induction false} CostIndexIsRight(rows: seq<Row>, index: Index)
    ensures CostsRight(rows, index, CostIndex(rows, index))
  {
    if rows != [] {
      var front := rows[..|rows| - 1];
      CostIndexIsRight(front, index);
      CostsKept(front, rows[|rows| - 1], index, CostIndex(front, index));
      assert rows == front + [rows[|rows| - 1]];
    }
  }

  /** Every bucket is the sum over the rows filed under its key, and no other key appears. */
  method MakeReport(rows: seq<Row>) returns (r: Report)
    ensures r.calls == |rows| && r.total == Sum(rows, Cost)
    ensures ModelsRight(rows, r.byModel)
    ensures CostsRight(rows, ByDay, r.byDay)
    ensures CostsRight(rows, ByType, r.byType)
  {
    var byModel: map<Name, Bucket> := map[];
    var byDay: map<Name, nat> := map[];
    var byType: map<Name, nat> := map[];
    var total := 0;
    var i := 0;
    while i < |rows|
      invariant 0 <= i <= |rows| && total == Sum(rows[..i], Cost)
      invariant byModel == ModelIndex(rows[..i])
      invariant byDay == CostIndex(rows[..i], ByDay)
      invariant byType == CostIndex(rows[..i], ByType)
    {
      var row := rows[i];
      assert rows[..i + 1][..i] == rows[..i];
      total := total + row.cost;
      byModel := byModel[row.model := Added(byModel, row)];
      byDay := byDay[row.day := CostAt(byDay, row.day) + row.cost];
      var requestType := KeyOf(row, ByType);
      byType := byType[requestType := CostAt(byType, requestType) + row.cost];
      i := i + 1;
    }
    assert rows[..i] == rows;
    ModelIndexIsRight(rows);
    CostIndexIsRight(rows, ByDay);
    CostIndexIsRight(rows, ByType);
    r := Report(|rows|, total, byModel, byDay, byType);
  }

  // ----- the indexes add up -----

  function SliceSum(rows: seq<Row>, index: Index, keys: seq<Name>, measure: Measure): nat {
    if keys == [] then 0
    else SliceSum(rows, index, keys[..|keys| - 1], measure) + Slice(rows, index, keys[|keys| - 1], measure)
  }

  lemma {:induction false} SliceSumExtended(rows: seq<Row>, row: Row, index: Index, keys: seq<Name>, measure: Measure)
    requires Distinct(keys)
    ensures SliceSum(rows + [row], index, keys, measure)
            == SliceSum(rows, index, keys, measure) + (if KeyOf(row, index) in keys then Amount(row, measure) else 0)
  {
    if keys != [] {
      var front := keys[..|keys| - 1];
      assert keys == front + [keys[|keys| - 1]];
      SliceSumExtended(rows, row, index, front, measure);
      SliceExtended(rows, row, index, keys[|keys| - 1], measure);
    }
  }

  lemma {:induction false} NothingToSum(index: Index, keys: seq<Name>, measure: Measure)
    ensures SliceSum([], index, keys, measure) == 0
  {
    if keys != [] {
      NothingToSum(index, keys[..|keys| - 1], measure);
    }
  }

  /** Whatever the order in which an index lists its keys, its buckets add up to the plain sum over the rows: cost,
      calls and tokens alike. */
  lemma {:induction false} IndexAddsUp(rows: seq<Row>, index: Index, keys: seq<Name>, measure: Measure)
    requires Distinct(keys) && forall k :: 0 <= k < |rows| ==> KeyOf(rows[k], index) in keys
    ensures SliceSum(rows, index, keys, measure) == Sum(rows, measure)
  {
    if rows == [] {
      NothingToSum(index, keys, measure);
    } else {
      var front := rows[..|rows| - 1];
      IndexAddsUp(front, index, keys, measure);
      assert rows == front + [rows[|rows| - 1]];
      SliceSumExtended(front, rows[|rows| - 1], index, keys, measure);
    }
  }

  lemma {:induction false} CallsAreRows(rows: seq<Row>)
    ensures Sum(rows, Calls) == |rows|
  {
    if rows != [] {
      CallsAreRows(rows[..|rows| - 1]);
    }
  }

  function CostTotal(m: map<Name, nat>, keys: seq<Name>): nat {
    if keys == [] then 0 else CostTotal(m, keys[..|keys| - 1]) + CostAt(m, keys[|keys| - 1])
  }

  lemma {:induction false} CostTotalIsSliceSum(rows: seq<Row>, index: Index, m: map<Name, nat>, keys: seq<Name>)
    requires CostsRight(rows, index, m)
    ensures CostTotal(m, keys) == SliceSum(rows, index, keys, Cost)
  {
    if keys != [] {
      CostTotalIsSliceSum(rows, index, m, keys[..|keys| - 1]);
      if keys[|keys| - 1] !in m {
        UnusedIsEmpty(rows, index, keys[|keys| - 1], Cost);
      }
    }
  }

  lemma {:induction false} FiledIsUsed(rows: seq<Row>, index: Index, k: nat)
    requires k < |rows|
    ensures Used(rows, index, KeyOf(rows[k], index))
  {
    if k < |rows| - 1 {
      FiledIsUsed(rows[..|rows| - 1], index, k);
    }
  }

  predicate Lists<T>(keys: seq<Name>, m: map<Name, T>) {
    forall k :: k in m ==> k in keys
  }

  /** A reported cost index, added up over its keys listed once each, gives the reported total. */
  lemma ReportedIndexAddsUp(rows: seq<Row>, index: Index, m: map<Name, nat>, keys: seq<Name>)
    requires CostsRight(rows, index, m) && Distinct(keys) && Lists(keys, m)
    ensures CostTotal(m, keys) == Sum(rows, Cost)
  {
    CostTotalIsSliceSum(rows, index, m, keys);
    forall k | 0 <= k < |rows| ensures KeyOf(rows[k], index) in keys {
      FiledIsUsed(rows, index, k);
    }
    IndexAddsUp(rows, index, keys, Cost);
  }

  function ModelTotal(m: map<Name, Bucket>, keys: seq<Name>, measure: Measure): nat {
    if keys == [] then 0
    else
      ModelTotal(m, keys[..|keys| - 1], measure)
      + (if keys[|keys| - 1] in m then Read(m[keys[|keys| - 1]], measure) else 0)
  }

  function Read(b: Bucket, measure: Measure): nat {
    match measure
    case Calls => b.calls
    case Cost => b.cost
    case TokensIn => b.tokensIn
    case TokensOut => b.tokensOut
  }

  lemma {:induction false} ModelTotalIsSliceSum(rows: seq<Row>, m: map<Name, Bucket>, keys: seq<Name>, measure: Measure)
    requires ModelsRight(rows, m)
    ensures ModelTotal(m, keys, measure) == SliceSum(rows, ByModel, keys, measure)
  {
    if keys != [] {
      ModelTotalIsSliceSum(rows, m, keys[..|keys| - 1], measure);
      if keys[|keys| - 1] !in m {
        UnusedIsEmpty(rows, ByModel, keys[|keys| - 1], measure);
      }
    }
  }

  /** The model index adds up in all four columns; its calls are the number of rows. */
  lemma ReportedModelsAddUp(rows: seq<Row>, m: map<Name, Bucket>, keys: seq<Name>, measure: Measure)
    requires ModelsRight(rows, m) && Distinct(keys) && Lists(keys, m)
    ensures ModelTotal(m, keys, measure) == Sum(rows, measure)
    ensures ModelTotal(m, keys, Calls) == |rows|
  {
    forall k | 0 <= k < |rows| ensures KeyOf(rows[k], ByModel) in keys {
      FiledIsUsed(rows, ByModel, k);
    }
    ModelTotalIsSliceSum(rows, m, keys, measure);
    IndexAddsUp(rows, ByModel, keys, measure);
    ModelTotalIsSliceSum(rows, m, keys, Calls);
    IndexAddsUp(rows, ByModel, keys, Calls);
    CallsAreRows(rows);
  }
}
