/** Scoring of the evaluation harness: per-class precision, recall and F1, and their macro average. */
module EvalMetrics {
  import opened RedisLists

  datatype Label = Label(text: string)

  datatype Pair = Pair(expected: Label, predicted: Label)

  datatype ClassMetric = ClassMetric(precision: real, recall: real, f1: real, support: nat)

  datatype Report = Report(accuracy: real, macroF1: real, perClass: map<Label, ClassMetric>, n: nat)

  datatype Result = EmptyResultSet | Scored(report: Report)

  predicate Right(q: Pair) { q.expected == q.predicted }

  function Correct(pairs: seq<Pair>): (r: nat)
    ensures r <= |pairs|
  {
    if pairs == [] then 0 else Correct(pairs[..|pairs| - 1]) + (if Right(pairs[|pairs| - 1]) then 1 else 0)
  }

  // ----- the confusion counts of one label -----

  datatype Kind = TruePositive | FalsePositive | FalseNegative | Support

  predicate Falls(q: Pair, kind: Kind, tag: Label) {
    match kind
    case TruePositive => q.expected == tag && q.predicted == tag
    case FalsePositive => q.expected != tag && q.predicted == tag
    case FalseNegative => q.expected == tag && q.predicted != tag
    case Support => q.expected == tag
  }

  function Cell(pairs: seq<Pair>, kind: Kind, tag: Label): nat {
    if pairs == [] then 0
    else Cell(pairs[..|pairs| - 1], kind, tag) + (if Falls(pairs[|pairs| - 1], kind, tag) then 1 else 0)
  }

  function Ratio(hits: nat, misses: nat): real {
    if hits + misses > 0 then hits as real / (hits + misses) as real else 0.0
  }

  function F1(precision: real, recall: real): real {
    if precision + recall != 0.0 then 2.0 * precision * recall / (precision + recall) else 0.0
  }

  function Precision(pairs: seq<Pair>, tag: Label): real {
    Ratio(Cell(pairs, TruePositive, tag), Cell(pairs, FalsePositive, tag))
  }

  function Recall(pairs: seq<Pair>, tag: Label): real {
    Ratio(Cell(pairs, TruePositive, tag), Cell(pairs, FalseNegative, tag))
  }

  function LabelF1(pairs: seq<Pair>, tag: Label): real { F1(Precision(pairs, tag), Recall(pairs, tag)) }

  function Metric(pairs: seq<Pair>, tag: Label): ClassMetric {
    ClassMetric(Precision(pairs, tag), Recall(pairs, tag), LabelF1(pairs, tag), Cell(pairs, Support, tag))
  }

  // ----- the labels -----

  function With(tags: seq<Label>, tag: Label): seq<Label> {
    if tag in tags then tags else tags + [tag]
  }

  /** Every label that was expected or predicted, once. */
  function Tags(pairs: seq<Pair>): seq<Label> {
    if pairs == [] then []
    else With(With(Tags(pairs[..|pairs| - 1]), pairs[|pairs| - 1].expected), pairs[|pairs| - 1].predicted)
  }

  predicate Mentions(q: Pair, tag: Label) { q.expected == tag || q.predicted == tag }

  predicate Occurs(pairs: seq<Pair>, tag: Label) {
    pairs != [] && (Occurs(pairs[..|pairs| - 1], tag) || Mentions(pairs[|pairs| - 1], tag))
  }

  lemma {:induction false} MentionedOccurs(pairs: seq<Pair>, k: nat, tag: Label)
    requires k < |pairs| && Mentions(pairs[k], tag)
    ensures Occurs(pairs, tag)
  {
    if k < |pairs| - 1 {
      MentionedOccurs(pairs[..|pairs| - 1], k, tag);
    }
  }

  lemma {:induction false} TagsAreDistinct(pairs: seq<Pair>)
    ensures Distinct(Tags(pairs))
  {
    if pairs != [] {
      TagsAreDistinct(pairs[..|pairs| - 1]);
    }
  }

  lemma {:induction false} TagsAreComplete(pairs: seq<Pair>, tag: Label)
    ensures tag in Tags(pairs) <==> Occurs(pairs, tag)
  {
    if pairs != [] {
      TagsAreComplete(pairs[..|pairs| - 1], tag);
    }
  }

  // ----- sums over the labels -----

  function Total(pairs: seq<Pair>, kind: Kind, tags: seq<Label>): nat {
    if tags == [] then 0 else Total(pairs, kind, tags[..|tags| - 1]) + Cell(pairs, kind, tags[|tags| - 1])
  }

  /** How many labels count one pair. */
  function Hits(q: Pair, kind: Kind, tags: seq<Label>): nat {
    if tags == [] then 0 else Hits(q, kind, tags[..|tags| - 1]) + (if Falls(q, kind, tags[|tags| - 1]) then 1 else 0)
  }

  lemma {:induction false} TotalExtended(pairs: seq<Pair>, q: Pair, kind: Kind, tags: seq<Label>)
    ensures Total(pairs + [q], kind, tags) == Total(pairs, kind, tags) + Hits(q, kind, tags)
  {
    if tags != [] {
      TotalExtended(pairs, q, kind, tags[..|tags| - 1]);
      assert (pairs + [q])[..|pairs|] == pairs;
    }
  }

  /** The one label under which a pair is counted, if it is counted at all. */
  function Home(q: Pair, kind: Kind): Label { if kind.FalsePositive? then q.predicted else q.expected }

  predicate Counts(q: Pair, kind: Kind) {
    match kind
    case TruePositive => Right(q)
    case FalsePositive => !Right(q)
    case FalseNegative => !Right(q)
    case Support => true
  }

  lemma {:induction false} HitOnce(q: Pair, kind: Kind, tags: seq<Label>)
    requires Distinct(tags)
    ensures Hits(q, kind, tags) == if Counts(q, kind) && Home(q, kind) in tags then 1 else 0
  {
    if tags != [] {
      var front := tags[..|tags| - 1];
      assert tags == front + [tags[|tags| - 1]];
      HitOnce(q, kind, front);
    }
  }

  function Expected(pairs: seq<Pair>, kind: Kind): int {
    match kind
    case TruePositive => Correct(pairs)
    case FalsePositive => |pairs| - Correct(pairs)
    case FalseNegative => |pairs| - Correct(pairs)
    case Support => |pairs|
  }

  lemma {:induction false} TotalOver(pairs: seq<Pair>, kind: Kind, tags: seq<Label>)
    requires Distinct(tags) && forall k :: 0 <= k < |pairs| ==> Home(pairs[k], kind) in tags
    ensures Total(pairs, kind, tags) == Expected(pairs, kind)
  {
    if pairs == [] {
      NothingToTotal(kind, tags);
    } else {
      var front := pairs[..|pairs| - 1];
      var q := pairs[|pairs| - 1];
      assert pairs == front + [q];
      TotalOver(front, kind, tags);
      TotalExtended(front, q, kind, tags);
      HitOnce(q, kind, tags);
    }
  }

  lemma {:induction false} NothingToTotal(kind: Kind, tags: seq<Label>)
    ensures Total([], kind, tags) == 0
  {
    if tags != [] {
      NothingToTotal(kind, tags[..|tags| - 1]);
    }
  }

  lemma HomesAreTags(pairs: seq<Pair>, kind: Kind)
    ensures forall k :: 0 <= k < |pairs| ==> Home(pairs[k], kind) in Tags(pairs)
  {
    forall k | 0 <= k < |pairs| ensures Home(pairs[k], kind) in Tags(pairs) {
      MentionedOccurs(pairs, k, Home(pairs[k], kind));
      TagsAreComplete(pairs, Home(pairs[k], kind));
    }
  }

  /** Over all labels: true positives add up to the correct answers, false positives and false negatives both to the
      wrong ones, supports to all. */
  lemma ConfusionAddsUp(pairs: seq<Pair>)
    ensures Total(pairs, TruePositive, Tags(pairs)) == Correct(pairs)
    ensures Total(pairs, FalsePositive, Tags(pairs)) == |pairs| - Correct(pairs)
    ensures Total(pairs, FalseNegative, Tags(pairs)) == |pairs| - Correct(pairs)
    ensures Total(pairs, Support, Tags(pairs)) == |pairs|
  {
    TagsAreDistinct(pairs);
    HomesAreTags(pairs, TruePositive);
    HomesAreTags(pairs, FalsePositive);
    HomesAreTags(pairs, FalseNegative);
    HomesAreTags(pairs, Support);
    TotalOver(pairs, TruePositive, Tags(pairs));
    TotalOver(pairs, FalsePositive, Tags(pairs));
    TotalOver(pairs, FalseNegative, Tags(pairs));
    TotalOver(pairs, Support, Tags(pairs));
  }

  // ----- recall weighted by support is accuracy -----

  function Accuracy(pairs: seq<Pair>): real {
    if pairs == [] then 0.0 else Correct(pairs) as real / |pairs| as real
  }

  function Recalled(pairs: seq<Pair>, tag: Label): real {
    Cell(pairs, Support, tag) as real * Recall(pairs, tag)
  }

  function WeightedRecall(pairs: seq<Pair>, tags: seq<Label>): real {
    if tags == [] then 0.0
    else WeightedRecall(pairs, tags[..|tags| - 1]) + Recalled(pairs, tags[|tags| - 1])
  }

  lemma {:induction false} SupportSplits(pairs: seq<Pair>, tag: Label)
    ensures Cell(pairs, Support, tag) == Cell(pairs, TruePositive, tag) + Cell(pairs, FalseNegative, tag)
  {
    if pairs != [] {
      SupportSplits(pairs[..|pairs| - 1], tag);
    }
  }

  lemma RatioTimes(hits: nat, misses: nat, support: nat, recall: real)
    requires support == hits + misses && recall == Ratio(hits, misses)
    ensures support as real * recall == hits as real
  {
  }

  lemma RecallTimesSupport(pairs: seq<Pair>, tag: Label)
    ensures Recalled(pairs, tag) == Cell(pairs, TruePositive, tag) as real
  {
    SupportSplits(pairs, tag);
    RatioTimes(Cell(pairs, TruePositive, tag), Cell(pairs, FalseNegative, tag), Cell(pairs, Support, tag),
               Recall(pairs, tag));
  }

  lemma {:induction false} WeightedRecallIsHits(pairs: seq<Pair>, tags: seq<Label>)
    ensures WeightedRecall(pairs, tags) == Total(pairs, TruePositive, tags) as real
  {
    if tags != [] {
      WeightedRecallIsHits(pairs, tags[..|tags| - 1]);
      RecallTimesSupport(pairs, tags[|tags| - 1]);
    }
  }

  lemma WeightedRecallIsAccuracy(pairs: seq<Pair>)
    requires pairs != []
    ensures WeightedRecall(pairs, Tags(pairs)) / |pairs| as real == Accuracy(pairs)
  {
    WeightedRecallIsHits(pairs, Tags(pairs));
    ConfusionAddsUp(pairs);
  }

  // ----- macro-F1 -----

  lemma Quotient(x: real, y: real)
    requires 0.0 <= x <= y && y > 0.0
    ensures 0.0 <= x / y <= 1.0
    ensures x / y == 1.0 <==> x == y
    ensures x / y == 0.0 <==> x == 0.0
  {
    assert (x / y) * y == x;
  }

  lemma RatioBounded(hits: nat, misses: nat)
    ensures 0.0 <= Ratio(hits, misses) <= 1.0
    ensures Ratio(hits, misses) == 1.0 <==> hits > 0 && misses == 0
  {
    if hits + misses > 0 {
      Quotient(hits as real, (hits + misses) as real);
    }
  }

  lemma Product(a: real, b: real) returns (c: real)
    requires a >= 0.0 && b >= 0.0
    ensures c == a * b && c >= 0.0
    ensures c == 0.0 <==> a == 0.0 || b == 0.0
  {
    c := a * b;
  }

  lemma ScaledDown(p: real, r: real, both: real)
    requires 0.0 <= p && 0.0 <= r <= 1.0 && both == p * r
    ensures 0.0 <= both <= p
    ensures both == p <==> p == 0.0 || r == 1.0
  {
    var same := Product(p, r);
    var rest := Product(p, 1.0 - r);
    assert both + rest == p;
  }

  lemma ProductBounded(p: real, r: real) returns (both: real)
    requires 0.0 <= p <= 1.0 && 0.0 <= r <= 1.0
    ensures both == p * r && 0.0 <= both <= p && both <= r
    ensures both == p && both == r <==> (p == 0.0 && r == 0.0) || (p == 1.0 && r == 1.0)
  {
    both := p * r;
    ScaledDown(p, r, both);
    ScaledDown(r, p, both);
  }

  lemma HarmonicBounded(both: real, p: real, r: real)
    requires 0.0 <= both <= p && both <= r && p + r > 0.0
    ensures 0.0 <= (both + both) / (p + r) <= 1.0
    ensures (both + both) / (p + r) == 1.0 <==> both == p && both == r
  {
    Quotient(both + both, p + r);
  }

  lemma F1IsHarmonic(p: real, r: real, both: real)
    requires p + r != 0.0 && both == p * r
    ensures F1(p, r) == (both + both) / (p + r)
  {
    assert 2.0 * p * r == both + both;
  }

  lemma F1Bounded(p: real, r: real)
    requires 0.0 <= p <= 1.0 && 0.0 <= r <= 1.0
    ensures 0.0 <= F1(p, r) <= 1.0
    ensures F1(p, r) == 1.0 <==> p == 1.0 && r == 1.0
  {
    if p + r != 0.0 {
      var both := ProductBounded(p, r);
      HarmonicBounded(both, p, r);
      F1IsHarmonic(p, r, both);
    }
  }

  /** Precision and recall as proportions: of what was predicted so, of what was expected so. */
  lemma PrecisionIsShareOfPredicted(pairs: seq<Pair>, tag: Label)
    ensures var tp, fp := Cell(pairs, TruePositive, tag), Cell(pairs, FalsePositive, tag);
            && (tp + fp) as real * Precision(pairs, tag) == tp as real
            && (Precision(pairs, tag) == 0.0 <==> tp == 0)
  {
    var tp, fp := Cell(pairs, TruePositive, tag), Cell(pairs, FalsePositive, tag);
    RatioTimes(tp, fp, tp + fp, Precision(pairs, tag));
    RatioIsZero(tp, fp);
  }

  lemma RecallIsShareOfExpected(pairs: seq<Pair>, tag: Label)
    ensures var tp, fn := Cell(pairs, TruePositive, tag), Cell(pairs, FalseNegative, tag);
            && (tp + fn) as real * Recall(pairs, tag) == tp as real
            && (Recall(pairs, tag) == 0.0 <==> tp == 0)
  {
    var tp, fn := Cell(pairs, TruePositive, tag), Cell(pairs, FalseNegative, tag);
    RatioTimes(tp, fn, tp + fn, Recall(pairs, tag));
    RatioIsZero(tp, fn);
  }

  lemma RatioIsZero(hits: nat, misses: nat)
    ensures Ratio(hits, misses) == 0.0 <==> hits == 0
  {
    if hits + misses > 0 {
      Quotient(hits as real, (hits + misses) as real);
    }
  }

  /** Over shares `p` of `t + f` and `r` of `t + g`, the harmonic mean is the share `2t` of `2t + f + g`. */
  lemma HarmonicShare(t: real, f: real, g: real, p: real, r: real, h: real)
    requires t > 0.0 && f >= 0.0 && g >= 0.0 && p + r > 0.0
    requires (t + f) * p == t && (t + g) * r == t && h * (p + r) == p * r + p * r
    requires p > 0.0 && r > 0.0
    ensures (t + t + f + g) * h == t + t
  {
    var a, b := t + f, t + g;
    assert a * p == t && b * r == t;
    var pr := p * r;
    Product3(a, p, r, t);
    Product3(b, r, p, t);
    assert (a + b) * pr == t * r + t * p by {
      assert a * pr == t * r;
      assert b * pr == t * p;
    }
    Cancel(a + b, pr, p + r, t, h);
  }

  lemma Product3(a: real, p: real, r: real, t: real)
    requires a * p == t
    ensures a * (p * r) == t * r
  {
  }

  lemma Cancel(a: real, pr: real, sum: real, t: real, h: real)
    requires sum > 0.0 && a * pr == t * sum && h * sum == pr + pr
    ensures a * h == t + t
  {
    assert (a * h) * sum == a * (h * sum);
    assert a * (pr + pr) == (t + t) * sum;
    Unscale(a * h, t + t, sum);
  }

  lemma Unscale(x: real, y: real, sum: real)
    requires sum > 0.0 && x * sum == y * sum
    ensures x == y
  {
    assert (x - y) * sum == 0.0;
  }

  lemma ShareOfCounts(tp: nat, fp: nat, fn: nat, p: real, r: real, h: real)
    requires (tp + fp) as real * p == tp as real && (tp + fn) as real * r == tp as real
    requires (p == 0.0 <==> tp == 0) && (r == 0.0 <==> tp == 0) && p >= 0.0 && r >= 0.0 && h == F1(p, r)
    ensures (tp + tp + fp + fn) as real * h == (tp + tp) as real
    ensures tp == 0 ==> h == 0.0
  {
    if tp > 0 {
      var both := p * r;
      F1IsHarmonic(p, r, both);
      F1Scaled(both, p + r, h);
      HarmonicShare(tp as real, fp as real, fn as real, p, r, h);
      assert (tp + tp + fp + fn) as real == tp as real + tp as real + fp as real + fn as real;
    }
  }

  lemma F1Scaled(both: real, sum: real, h: real)
    requires sum > 0.0 && h == (both + both) / sum
    ensures h * sum == both + both
  {
  }

  lemma RatioShare(tp: nat, misses: nat, p: real)
    requires p == Ratio(tp, misses)
    ensures (tp + misses) as real * p == tp as real && (p == 0.0 <==> tp == 0) && p >= 0.0
  {
    RatioTimes(tp, misses, tp + misses, p);
    RatioIsZero(tp, misses);
    RatioBounded(tp, misses);
  }

  lemma CountsShare(tp: nat, fp: nat, fn: nat, p: real, r: real, h: real)
    requires p == Ratio(tp, fp) && r == Ratio(tp, fn) && h == F1(p, r)
    ensures (tp + tp + fp + fn) as real * h == (tp + tp) as real
    ensures tp == 0 ==> h == 0.0
  {
    RatioShare(tp, fp, p);
    RatioShare(tp, fn, r);
    ShareOfCounts(tp, fp, fn, p, r, h);
  }

  /** F1 of a label, from its confusion counts: the share of 2 TP in 2 TP + FP + FN, and 0 without a true positive. */
  lemma F1IsShare(pairs: seq<Pair>, tag: Label, tp: nat, fp: nat, fn: nat, f1: real)
    requires tp == Cell(pairs, TruePositive, tag) && fp == Cell(pairs, FalsePositive, tag)
    requires fn == Cell(pairs, FalseNegative, tag) && f1 == LabelF1(pairs, tag)
    ensures (tp + tp + fp + fn) as real * f1 == (tp + tp) as real
    ensures tp == 0 ==> f1 == 0.0
  {
    CountsShare(tp, fp, fn, Precision(pairs, tag), Recall(pairs, tag), f1);
  }

  function F1Sum(pairs: seq<Pair>, tags: seq<Label>): real {
    if tags == [] then 0.0 else F1Sum(pairs, tags[..|tags| - 1]) + LabelF1(pairs, tags[|tags| - 1])
  }

  function MacroF1(pairs: seq<Pair>): real {
    if Tags(pairs) == [] then 0.0 else F1Sum(pairs, Tags(pairs)) / |Tags(pairs)| as real
  }

  /** A label that occurs scores 1 exactly when no pair is counted against it. */
  lemma PerfectLabel(pairs: seq<Pair>, tag: Label)
    requires Occurs(pairs, tag)
    ensures 0.0 <= LabelF1(pairs, tag) <= 1.0
    ensures LabelF1(pairs, tag) == 1.0
            <==> Cell(pairs, FalsePositive, tag) == 0 && Cell(pairs, FalseNegative, tag) == 0
  {
    var tp := Cell(pairs, TruePositive, tag);
    RatioBounded(tp, Cell(pairs, FalsePositive, tag));
    RatioBounded(tp, Cell(pairs, FalseNegative, tag));
    F1Bounded(Precision(pairs, tag), Recall(pairs, tag));
    OccurringIsCounted(pairs, tag);
  }

  lemma {:induction false} OccurringIsCounted(pairs: seq<Pair>, tag: Label)
    requires Occurs(pairs, tag)
    ensures Cell(pairs, TruePositive, tag) + Cell(pairs, FalsePositive, tag) + Cell(pairs, FalseNegative, tag) > 0
  {
    if Occurs(pairs[..|pairs| - 1], tag) {
      OccurringIsCounted(pairs[..|pairs| - 1], tag);
    }
  }

  lemma {:induction false} F1SumBounded(pairs: seq<Pair>, tags: seq<Label>)
    requires forall i :: 0 <= i < |tags| ==> Occurs(pairs, tags[i])
    ensures 0.0 <= F1Sum(pairs, tags) <= |tags| as real
    ensures F1Sum(pairs, tags) == |tags| as real
            <==> Total(pairs, FalsePositive, tags) == 0 && Total(pairs, FalseNegative, tags) == 0
  {
    if tags != [] {
      F1SumBounded(pairs, tags[..|tags| - 1]);
      PerfectLabel(pairs, tags[|tags| - 1]);
    }
  }

  lemma TagsOccur(pairs: seq<Pair>)
    ensures forall i :: 0 <= i < |Tags(pairs)| ==> Occurs(pairs, Tags(pairs)[i])
    ensures pairs != [] ==> Tags(pairs) != []
  {
    forall i | 0 <= i < |Tags(pairs)| ensures Occurs(pairs, Tags(pairs)[i]) {
      TagsAreComplete(pairs, Tags(pairs)[i]);
    }
    if pairs != [] {
      MentionedOccurs(pairs, 0, pairs[0].expected);
      TagsAreComplete(pairs, pairs[0].expected);
    }
  }

  /** Macro-F1 lies between 0 and 1, and is 1 exactly when every answer is right. */
  lemma MacroF1IsPerfectExactlyWhenAccuracyIs(pairs: seq<Pair>)
    requires pairs != []
    ensures 0.0 <= MacroF1(pairs) <= 1.0
    ensures MacroF1(pairs) == 1.0 <==> Accuracy(pairs) == 1.0
  {
    var tags := Tags(pairs);
    TagsOccur(pairs);
    F1SumBounded(pairs, tags);
    Quotient(F1Sum(pairs, tags), |tags| as real);
    ConfusionAddsUp(pairs);
    Quotient(Correct(pairs) as real, |pairs| as real);
  }

  lemma {:induction false} F1SumTakeOut(pairs: seq<Pair>, tags: seq<Label>, j: nat)
    requires j < |tags|
    ensures F1Sum(pairs, tags) == F1Sum(pairs, tags[..j] + tags[j + 1..]) + LabelF1(pairs, tags[j])
  {
    var front, others := tags[..|tags| - 1], tags[..j] + tags[j + 1..];
    if j == |tags| - 1 {
      assert others == front;
    } else {
      F1SumTakeOut(pairs, front, j);
      assert others[..|others| - 1] == front[..j] + front[j + 1..];
    }
  }

  lemma Parts(t: seq<Label>, j: nat)
    requires Distinct(t) && j < |t|
    ensures var others := t[..j] + t[j + 1..];
            Distinct(others) && forall x :: x in others <==> x in t && x != t[j]
  {
    var others := t[..j] + t[j + 1..];
    forall x ensures x in others <==> x in t && x != t[j] {
      if x in t && x != t[j] {
        var k :| 0 <= k < |t| && t[k] == x;
        assert others[if k < j then k else k - 1] == x;
      }
    }
  }

  lemma HeadIsMember(t: seq<Label>)
    ensures t == [] || t[0] in t
  {
  }

  lemma {:induction false} F1SumAnyOrder(pairs: seq<Pair>, s: seq<Label>, t: seq<Label>)
    requires Distinct(s) && Distinct(t) && forall x :: x in s <==> x in t
    ensures F1Sum(pairs, s) == F1Sum(pairs, t) && |s| == |t|
  {
    if s == [] {
      HeadIsMember(t);
    } else {
      var n := |s| - 1;
      assert s[n] in t;
      var j :| 0 <= j < |t| && t[j] == s[n];
      Parts(s, n);
      Parts(t, j);
      assert s[..n] + s[n + 1..] == s[..n];
      F1SumTakeOut(pairs, t, j);
      F1SumAnyOrder(pairs, s[..n], t[..j] + t[j + 1..]);
    }
  }

  lemma MeanTimes(n: nat, sum: real, mean: real)
    requires n > 0 && mean == sum / n as real
    ensures n as real * mean == sum
  {
  }

  lemma MacroF1Times(pairs: seq<Pair>, n: nat)
    requires n == |Tags(pairs)| && n > 0
    ensures n as real * MacroF1(pairs) == F1Sum(pairs, Tags(pairs))
  {
    MeanTimes(n, F1Sum(pairs, Tags(pairs)), MacroF1(pairs));
  }

  ghost predicate Lists(tags: seq<Label>, pairs: seq<Pair>) {
    Distinct(tags) && forall t :: t in tags <==> Occurs(pairs, t)
  }

  lemma SameTags(pairs: seq<Pair>, tags: seq<Label>)
    requires pairs != [] && Lists(tags, pairs)
    ensures F1Sum(pairs, tags) == F1Sum(pairs, Tags(pairs)) && |tags| == |Tags(pairs)| > 0
  {
    forall t ensures t in tags <==> t in Tags(pairs) {
      TagsAreComplete(pairs, t);
    }
    TagsAreDistinct(pairs);
    TagsOccur(pairs);
    F1SumAnyOrder(pairs, tags, Tags(pairs));
  }

  /** Macro-F1 is the plain mean over the labels that occur, in whatever order they are listed. */
  lemma MacroF1IsPlainMean(pairs: seq<Pair>, tags: seq<Label>, n: nat)
    requires pairs != [] && Lists(tags, pairs) && n == |tags|
    ensures n as real * MacroF1(pairs) == F1Sum(pairs, tags)
  {
    SameTags(pairs, tags);
    MacroF1Times(pairs, n);
  }

  // ----- the report -----

  function Table(pairs: seq<Pair>, tags: seq<Label>): map<Label, ClassMetric> {
    if tags == [] then map[]
    else Table(pairs, tags[..|tags| - 1])[tags[|tags| - 1] := Metric(pairs, tags[|tags| - 1])]
  }

  function Scores(pairs: seq<Pair>, tags: seq<Label>): (xs: seq<real>)
    ensures |xs| == |tags|
  {
    if tags == [] then [] else Scores(pairs, tags[..|tags| - 1]) + [LabelF1(pairs, tags[|tags| - 1])]
  }

  function Sum(xs: seq<real>): real {
    if xs == [] then 0.0 else Sum(xs[..|xs| - 1]) + xs[|xs| - 1]
  }

  lemma {:induction false} ScoresAddUp(pairs: seq<Pair>, tags: seq<Label>)
    ensures Sum(Scores(pairs, tags)) == F1Sum(pairs, tags)
  {
    if tags != [] {
      ScoresAddUp(pairs, tags[..|tags| - 1]);
      var xs := Scores(pairs, tags);
      assert xs[..|xs| - 1] == Scores(pairs, tags[..|tags| - 1]);
    }
  }

  lemma {:induction false} TableLookup(pairs: seq<Pair>, tags: seq<Label>, tag: Label)
    ensures tag in Table(pairs, tags) <==> tag in tags
    ensures tag in tags ==> Table(pairs, tags)[tag] == Metric(pairs, tag)
  {
    if tags != [] {
      TableLookup(pairs, tags[..|tags| - 1], tag);
    }
  }

  /** One pass over the labels fills the table and the list of scores. */
  method ScoreLabels(pairs: seq<Pair>, tags: seq<Label>)
    returns (perClass: map<Label, ClassMetric>, f1Scores: seq<real>)
    ensures perClass == Table(pairs, tags) && f1Scores == Scores(pairs, tags)
  {
    perClass, f1Scores := map[], [];
    var i := 0;
    while i < |tags|
      invariant 0 <= i <= |tags| && perClass == Table(pairs, tags[..i]) && f1Scores == Scores(pairs, tags[..i])
    {
      assert tags[..i + 1][..i] == tags[..i];
      var metric := Metric(pairs, tags[i]);
      perClass := perClass[tags[i] := metric];
      f1Scores := f1Scores + [metric.f1];
      i := i + 1;
    }
    assert tags[..i] == tags;
  }

  /** An empty result set is refused; otherwise the report has one entry for each label that occurs. */
  method ClassificationReport(pairs: seq<Pair>) returns (r: Result)
    ensures r.EmptyResultSet? <==> pairs == []
    ensures r.Scored? ==> r.report.n == |pairs| && r.report.accuracy == Accuracy(pairs)
    ensures r.Scored? ==> r.report.macroF1 == MacroF1(pairs)
    ensures r.Scored? ==> forall t :: t in r.report.perClass <==> Occurs(pairs, t)
    ensures r.Scored? ==> forall t :: t in r.report.perClass ==>
              r.report.perClass[t]
              == ClassMetric(Precision(pairs, t), Recall(pairs, t), LabelF1(pairs, t), Cell(pairs, Support, t))
  {
    if pairs == [] {
      return EmptyResultSet;
    }
    TagsOccur(pairs);
    var perClass, f1Scores := ScoreLabels(pairs, Tags(pairs));
    ScoresAddUp(pairs, Tags(pairs));
    forall t ensures t in perClass <==> Occurs(pairs, t)
             ensures t in perClass ==> perClass[t] == Metric(pairs, t)
    {
      TagsAreComplete(pairs, t);
      TableLookup(pairs, Tags(pairs), t);
    }
    r := Scored(Report(Accuracy(pairs), Average(f1Scores), perClass, |pairs|));
  }

  function Average(xs: seq<real>): real { if xs == [] then 0.0 else Sum(xs) / |xs| as real }
}
