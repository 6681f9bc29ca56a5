/**
 The risk-adjustment arithmetic shared by the web handler and the report
 script: the relative-risk multiplier chosen from the number of affected
 relatives, the 0.95 ceiling, and the four-band risk categoriser.
 */
module Risk {

  /** The four ordinal risk categories, lowest first. */
  datatype Label = Low | Borderline | Elevated | High

  /** The text each category is shown and passed on as. */
  function LevelName(l: Label): (s: string)
    ensures s in {"Low Risk", "Borderline Risk", "Elevated Risk", "High Risk"}
  {
    match l
    case Low => "Low Risk"
    case Borderline => "Borderline Risk"
    case Elevated => "Elevated Risk"
    case High => "High Risk"
  }

  /** Position of a category in the order Low < Borderline < Elevated < High. */
  function Severity(l: Label): (n: nat)
    ensures n < 4
  {
    match l
    case Low => 0
    case Borderline => 1
    case Elevated => 2
    case High => 3
  }

  lemma LevelNameInjective(a: Label, b: Label)
    ensures LevelName(a) == LevelName(b) <==> a == b
  {
  }

  /**
   The classifier's probability turned into the family-history adjusted one,
   `1 - (1 - p) ** RR` in floating point. It is a parameter of the model:
   it is applied, but never defined or given a numeric value here.
   */
  type Transform = (real, real) -> real

  /**
   The relative-risk multiplier for a count of affected relatives: none
   leaves the risk alone, one relative gives 1.6 and every other count,
   including a negative one, gives 2.3.
   */
  function Multiplier(relatives: int): (rr: real)
    ensures rr == 1.0 <==> relatives == 0
    ensures rr == 1.6 <==> relatives == 1
    ensures rr == 2.3 <==> relatives != 0 && relatives != 1
    ensures rr >= 1.0
  {
    if relatives == 0 then 1.0
    else if relatives == 1 then 1.6
    else 2.3
  }

  /** The highest adjusted probability ever reported. */
  const Ceiling: real := 0.95

  /** `min(x, 0.95)`. */
  function Cap(x: real): (r: real)
    ensures r <= Ceiling && r <= x
    ensures r == x || r == Ceiling
    ensures x <= Ceiling ==> r == x
  {
    if Ceiling < x then Ceiling else x
  }

  lemma CapIdempotent(x: real)
    ensures Cap(Cap(x)) == Cap(x)
  {
  }

  /**
   The category of an adjusted probability: half-open bands at 0.25, 0.50
   and 0.75, each lower edge belonging to the band above it.
   */
  function Categorise(x: real): (l: Label)
    ensures l == Low <==> x < 0.25
    ensures l == Borderline <==> 0.25 <= x < 0.50
    ensures l == Elevated <==> 0.50 <= x < 0.75
    ensures l == High <==> 0.75 <= x
  {
    if x < 0.25 then Low
    else if x < 0.50 then Borderline
    else if x < 0.75 then Elevated
    else High
  }

  /** The cut points of the categoriser, in increasing order. */
  const Thresholds: seq<real> := [0.25, 0.50, 0.75]

  /** How many of the cut points `ts` lie at or below `x`. */
  function Reached(ts: seq<real>, x: real): (n: nat)
    ensures n <= |ts|
  {
    if ts == [] then 0
    else (if ts[0] <= x then 1 else 0) + Reached(ts[1..], x)
  }

  lemma {:induction false} ReachedMonotone(ts: seq<real>, x: real, y: real)
    requires x <= y
    ensures Reached(ts, x) <= Reached(ts, y)
  {
    if ts != [] {
      ReachedMonotone(ts[1..], x, y);
    }
  }

  /** A category's severity is the number of cut points the value has reached. */
  lemma SeverityIsThresholdsReached(x: real)
    ensures Severity(Categorise(x)) == Reached(Thresholds, x)
  {
    assert [0.75][1..] == [];
    assert Reached([0.75], x) == (if 0.75 <= x then 1 else 0);
    assert [0.50, 0.75][1..] == [0.75];
    assert Reached([0.50, 0.75], x) == (if 0.50 <= x then 1 else 0) + Reached([0.75], x);
    assert Thresholds[1..] == [0.50, 0.75];
  }

  /** A higher probability never yields a lower category. */
  lemma CategoriseMonotone(x: real, y: real)
    requires x <= y
    ensures Severity(Categorise(x)) <= Severity(Categorise(y))
  {
    SeverityIsThresholdsReached(x);
    SeverityIsThresholdsReached(y);
    ReachedMonotone(Thresholds, x, y);
  }

  /**
   Because the ceiling lies inside the top band, clamping before or after
   categorising gives the same category.
   */
  lemma CapKeepsCategory(x: real)
    ensures Categorise(Cap(x)) == Categorise(x)
  {
  }

  /**
   The band edges and two sample adjusted values: 0.2152, about
   1 - 0.9 ** 2.3, and 0.7692, about 1 - 0.4 ** 1.6.
   */
  lemma CategoriseEdges()
    ensures Categorise(0.2499) == Low && Categorise(0.25) == Borderline
    ensures Categorise(0.4999) == Borderline && Categorise(0.50) == Elevated
    ensures Categorise(0.7499) == Elevated && Categorise(0.75) == High
    ensures Categorise(1.0) == High && Categorise(Cap(1.0)) == High
    ensures Categorise(Cap(0.2152)) == Low && Categorise(Cap(0.7692)) == High
  {
  }

  lemma {:induction false} ReachedPointwise(ts: seq<real>, x: real, y: real)
    requires forall c :: c in ts && c <= x ==> c <= y
    ensures Reached(ts, x) <= Reached(ts, y)
  {
    if ts != [] {
      assert ts[0] in ts;
      forall c | c in ts[1..] && c <= x
        ensures c <= y
      {
        assert c in ts;
      }
      ReachedPointwise(ts[1..], x, y);
    }
  }

  /**
   Family history never moves a patient into a lower category than the
   unadjusted probability would, provided the transform does not carry the
   probability back below a cut point it had reached. Unlike `p <= f(p, m)`,
   which rounding can break, this asks nothing below a cut point, and each
   cut point and one minus it are exact doubles.
   */
  lemma AdjustmentNeverLowersCategory(f: Transform, p: real, relatives: int)
    requires forall c :: c in Thresholds && c <= p ==> c <= f(p, Multiplier(relatives))
    ensures Severity(Categorise(Cap(p))) <= Severity(Categorise(Cap(f(p, Multiplier(relatives)))))
  {
    var adjusted := f(p, Multiplier(relatives));
    CapKeepsCategory(p);
    CapKeepsCategory(adjusted);
    SeverityIsThresholdsReached(p);
    SeverityIsThresholdsReached(adjusted);
    ReachedPointwise(Thresholds, p, adjusted);
  }

  /**
   A certain risk is reported at the ceiling, whatever the multiplier, for
   any transform that keeps it at or above the ceiling (in doubles
   `1 - 0.0 ** RR` is exactly 1).
   */
  lemma CertainRiskSaturates(f: Transform, relatives: int)
    requires f(1.0, Multiplier(relatives)) >= Ceiling
    ensures Cap(f(1.0, Multiplier(relatives))) == Ceiling
  {
  }
}
