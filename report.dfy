/**
 The command-line report script: it ranks the feature importances and lists
 the top five, picks the multiplier, transforms the probability, fixes the
 category BEFORE capping the adjusted risk, and then prints the report with
 its genetic section and a piece of advice for the category.
 */
module Report {
  import opened Risk
  import opened Ranking
  import WebHandler

  /** How many ranked features the script lists. */
  const ShownFactors: nat := 5

  /** The genetic part of the report. */
  datatype Genetic =
    | Amplified(multiplier: real, adjusted: real)  // multiplier and capped risk shown
    | NoAmplification                              // "No genetic amplification applied."

  /** Everything the script reports, in the order it reports it. */
  datatype Summary = Summary(
    factors: seq<Feature>,  // the listed top contributing factors
    multiplier: real,       // "Relative Risk Multiplier Applied"
    preview: real,          // adjusted risk printed before the cap
    base: real,             // base ML risk estimate
    genetic: Genetic,       // the genetic section
    level: Label,           // final risk category
    advice: string)         // the interpretation line

  const LowAdvice: string := "Maintain healthy lifestyle."
  const BorderlineAdvice: string := "Monitor blood pressure and cholesterol regularly."
  const ElevatedAdvice: string := "Lifestyle modification strongly recommended."
  const HighAdvice: string := "Clinical evaluation and medical consultation advised."

  /**
   The interpretation for a category name: three names are matched, anything
   else (the high category among them) gets the clinical advice.
   */
  function Advice(level: string): (s: string)
    ensures s == LowAdvice <==> level == "Low Risk"
    ensures s == BorderlineAdvice <==> level == "Borderline Risk"
    ensures s == ElevatedAdvice <==> level == "Elevated Risk"
    ensures s == HighAdvice <==> level != "Low Risk" && level != "Borderline Risk" && level != "Elevated Risk"
  {
    if level == "Low Risk" then LowAdvice
    else if level == "Borderline Risk" then BorderlineAdvice
    else if level == "Elevated Risk" then ElevatedAdvice
    else HighAdvice
  }

  /** Each category gets its own advice, and the high one the clinical advice. */
  lemma AdviceTableIsOneToOne(a: Label, b: Label)
    ensures Advice(LevelName(a)) == Advice(LevelName(b)) <==> a == b
    ensures Advice(LevelName(High)) == HighAdvice
  {
  }

  /**
   The script, step by step. Its category comes from the uncapped risk, but
   it is the category the web handler derives from the capped one; the
   genetic section appears exactly when there is at least one relative.
   */
  method Run(p: real, pairs: seq<Feature>, relatives: int, transform: Transform) returns (r: Summary)
    ensures r.factors == Top(Rank(pairs), ShownFactors)
    ensures |r.factors| == if |pairs| < ShownFactors then |pairs| else ShownFactors
    ensures NonIncreasing(r.factors)
    ensures r.multiplier == Multiplier(relatives)
    ensures r.preview == transform(p, Multiplier(relatives))
    ensures r.base == p
    ensures r.level == Categorise(Cap(r.preview))
    ensures r.level == WebHandler.Predict(p, relatives, pairs, transform).level
    ensures r.genetic.Amplified? <==> relatives > 0
    ensures r.genetic.Amplified? ==> r.genetic.multiplier == r.multiplier && r.genetic.adjusted == Cap(r.preview)
    ensures r.genetic.Amplified? ==> r.genetic.adjusted <= Ceiling
    ensures r.advice == Advice(LevelName(r.level))
  {
    var ranked := Rank(pairs);
    var shown := Top(ranked, ShownFactors);
    var factors: seq<Feature> := [];
    for i := 0 to |shown|
      invariant factors == shown[..i]
    {
      factors := factors + [shown[i]];
    }
    TopOfRanking(pairs, ShownFactors);

    var rr: real;
    if relatives == 0 {
      rr := 1.0;
    } else if relatives == 1 {
      rr := 1.6;
    } else {
      rr := 2.3;
    }

    var adjusted := transform(p, rr);
    var preview := adjusted;

    var level: Label;
    if adjusted < 0.25 {
      level := Low;
    } else if adjusted < 0.50 {
      level := Borderline;
    } else if adjusted < 0.75 {
      level := Elevated;
    } else {
      level := High;
    }

    adjusted := Cap(adjusted);

    var genetic := if relatives > 0 then Amplified(rr, adjusted) else NoAmplification;
    r := Summary(factors, rr, preview, p, genetic, level, Advice(LevelName(level)));
  }

  /**
   A negative count of relatives makes the report say that no genetic
   amplification was applied, while its category still comes from the risk
   amplified with the 2.3 multiplier.
   */
  method NegativeRelativesReport(p: real, pairs: seq<Feature>, relatives: int, transform: Transform) returns (r: Summary)
    requires relatives < 0
    ensures r.genetic == NoAmplification
    ensures r.multiplier == 2.3
    ensures r.level == Categorise(transform(p, 2.3))
  {
    r := Run(p, pairs, relatives, transform);
    CapKeepsCategory(r.preview);
  }
}
