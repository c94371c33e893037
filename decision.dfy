/** The decision rule of the `/predict` handler: a classifier probability is
    mapped to one of three triage categories by two fixed thresholds, and the
    probability is reported rounded to three decimal places. */
module Decision {

  /** The three triage outcomes, in increasing order of concern. */
  datatype Category = Suitable | CTRecommended | ScreenFail

  /** Probabilities at or above this value are a screen failure (inclusive test). */
  const ScreenFailThreshold: real := 0.45

  /** Probabilities strictly above this value (and below the one above) call for a CT scan. */
  const CTThreshold: real := 0.4

  /** The label the handler puts in the `prediction` field of its response. */
  function Label(c: Category): string {
    match c
    case Suitable => "Suitable"
    case CTRecommended => "CT Recommended"
    case ScreenFail => "Screen Fail"
  }

  /** Position of a category in the order Suitable < CT Recommended < Screen Fail. */
  function Rank(c: Category): nat {
    match c
    case Suitable => 0
    case CTRecommended => 1
    case ScreenFail => 2
  }

  /** The handler's if/elif/else chain: the first matching test wins. */
  function Classify(p: real): Category {
    if p >= ScreenFailThreshold then ScreenFail
    else if p > CTThreshold then CTRecommended
    else Suitable
  }

  // ---------------------------------------------------------------------------
  // An independent description of the rule: each category owns an interval of
  // the real line, with the boundary conventions written out.

  datatype Bound = Unbounded | Closed(at: real) | Open(at: real)

  /** An interval of reals given by its lower and upper end. */
  datatype Interval = Interval(lo: Bound, hi: Bound)

  predicate Contains(i: Interval, p: real) {
    && (match i.lo
        case Unbounded => true
        case Closed(a) => a <= p
        case Open(a) => a < p)
    && (match i.hi
        case Unbounded => true
        case Closed(b) => p <= b
        case Open(b) => p < b)
  }

  /** (-inf, 0.4] is Suitable, (0.4, 0.45) CT Recommended, [0.45, +inf) Screen Fail. */
  function Band(c: Category): Interval {
    match c
    case Suitable => Interval(Unbounded, Closed(0.4))
    case CTRecommended => Interval(Open(0.4), Open(0.45))
    case ScreenFail => Interval(Closed(0.45), Unbounded)
  }

  /** The rule picks a category exactly when the probability lies in its band. */
  lemma ClassifyIsBand(p: real, c: Category)
    ensures Classify(p) == c <==> Contains(Band(c), p)
  {
  }

  /** The bands cover the real line without overlap, so every probability gets
      exactly one category. */
  lemma BandsPartition(p: real)
    ensures Contains(Band(Classify(p)), p)
    ensures forall c :: Contains(Band(c), p) ==> c == Classify(p)
  {
    forall c | Contains(Band(c), p) ensures c == Classify(p) {
      ClassifyIsBand(p, c);
    }
  }

  /** At or above 0.45: Screen Fail. */
  lemma ScreenFailRegion(p: real)
    ensures Classify(p) == ScreenFail <==> p >= 0.45
  {
  }

  /** Strictly between 0.4 and 0.45: CT Recommended. */
  lemma CTRecommendedRegion(p: real)
    ensures Classify(p) == CTRecommended <==> 0.4 < p < 0.45
  {
  }

  /** At or below 0.4: Suitable. */
  lemma SuitableRegion(p: real)
    ensures Classify(p) == Suitable <==> p <= 0.4
  {
  }

  /** The tie-breaks: the lower threshold itself is Suitable, the upper one Screen Fail. */
  lemma Boundaries()
    ensures Classify(0.4) == Suitable
    ensures Classify(0.45) == ScreenFail
  {
  }

  /** A larger probability never yields a less severe category. */
  lemma ClassifyMonotone(p: real, q: real)
    requires p <= q
    ensures Rank(Classify(p)) <= Rank(Classify(q))
  {
  }

  /** Distinct categories carry distinct labels, so the response names exactly one. */
  lemma LabelInjective(c: Category, d: Category)
    ensures Label(c) == Label(d) <==> c == d
  {
  }

  // ---------------------------------------------------------------------------
  // round(prob, 3): the nearest multiple of 1/1000, ties to the even multiple.

  /** r is a whole number of thousandths. */
  predicate IsThousandth(r: real) {
    (r * 1000.0).Floor as real == r * 1000.0
  }

  /** The count of thousandths in a number that is a whole number of them. */
  function Thousandths(r: real): int {
    (r * 1000.0).Floor
  }

  function Round3(x: real): (r: real)
    ensures IsThousandth(r)
    ensures -0.0005 <= r - x <= 0.0005
    ensures (r - x == 0.0005 || x - r == 0.0005) ==> Thousandths(r) % 2 == 0
  {
    var y := x * 1000.0;
    var f := y.Floor;
    var d := y - f as real;
    var n := if d < 0.5 then f else if d > 0.5 then f + 1 else if f % 2 == 0 then f else f + 1;
    assert (n as real / 1000.0) * 1000.0 == n as real;
    n as real / 1000.0
  }

  /** Round3 is the only thousandth strictly closer than half a thousandth. */
  lemma Round3Unique(x: real, s: real)
    requires IsThousandth(s)
    requires -0.0005 < s - x < 0.0005
    ensures Round3(x) == s
  {
    var r := Round3(x);
    var m, n := Thousandths(s), Thousandths(r);
    assert s == m as real / 1000.0;
    assert r == n as real / 1000.0;
    assert -1.0 < (m - n) as real < 1.0;
  }

  /** Rounding a value that already has three decimals changes nothing. */
  lemma Round3Idempotent(x: real)
    ensures Round3(Round3(x)) == Round3(x)
  {
    Round3Unique(Round3(x), Round3(x));
  }

  /** Rounding preserves order. */
  lemma Round3Monotone(x: real, y: real)
    requires x <= y
    ensures Round3(x) <= Round3(y)
  {
    var a, b := Round3(x), Round3(y);
    var m, n := Thousandths(a), Thousandths(b);
    assert a == m as real / 1000.0 && b == n as real / 1000.0;
    assert (m - n) as real <= 1.0 - (y - x) * 1000.0;
  }

  /** A worked example: 0.4521 is reported as 0.452. */
  lemma Round3Example()
    ensures Round3(0.4521) == 0.452
  {
    Round3Unique(0.4521, 0.452);
  }

  /** The category is decided on the unrounded probability; the rounded one
      reported beside it lies in a different band exactly in two windows just
      above each threshold's rounding point: (0.4, 0.4005] reads as 0.4 and
      [0.4495, 0.45) reads as 0.45. */
  lemma RoundingCrossesBand(p: real)
    ensures Classify(Round3(p)) != Classify(p) <==> (0.4 < p <= 0.4005 || 0.4495 <= p < 0.45)
  {
    Round3Unique(0.4, 0.4);
    Round3Unique(0.45, 0.45);
    assert Round3(0.4005) == 0.4 by {
      var r := Round3(0.4005);
      assert Thousandths(r) == 400 || Thousandths(r) == 401;
    }
    assert Round3(0.4495) == 0.45 by {
      var r := Round3(0.4495);
      assert Thousandths(r) == 449 || Thousandths(r) == 450;
    }
    if p <= 0.4 {
      Round3Monotone(p, 0.4);
    } else if p <= 0.4005 {
      Round3Monotone(p, 0.4005);
    } else if p >= 0.45 {
      Round3Monotone(0.45, p);
    } else if p >= 0.4495 {
      Round3Monotone(0.4495, p);
    }
  }

  /** Some probability is classified CT Recommended while it is reported as a
      value that is itself Screen Fail. */
  lemma RoundingCanCrossUpperThreshold()
    ensures exists p: real :: Classify(p) == CTRecommended && Classify(Round3(p)) == ScreenFail
  {
    Round3Unique(0.4496, 0.45);
    assert Classify(0.4496) == CTRecommended && Classify(Round3(0.4496)) == ScreenFail;
  }
}
