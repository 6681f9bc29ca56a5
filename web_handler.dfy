/**
 The pure part of the web form's `predict` handler: from the classifier's
 base probability, the count of affected relatives and the feature
 importances, it derives the capped adjusted risk, its category, the
 comma-joined top-three feature names and the family-history flag that the
 explanation request is built from.
 */
module WebHandler {
  import opened Risk
  import opened Ranking

  /** How many ranked features the explanation names. */
  const TopCount: nat := 3

  /** What the handler joins feature names with. */
  const Separator: string := ", "

  /** `", ".join(names)`. */
  function Join(names: seq<string>): (s: string)
    ensures names == [] ==> s == ""
    ensures |names| == 1 ==> s == names[0]
    ensures |names| > 0 ==> names[0] <= s
  {
    if names == [] then ""
    else if |names| == 1 then names[0]
    else names[0] + Separator + Join(names[1..])
  }

  /** Position of the first comma in `s`, or `|s|` when there is none. */
  function CommaAt(s: string): (i: nat)
    ensures i <= |s|
    ensures i < |s| ==> s[i] == ','
  {
    if s == [] || s[0] == ',' then 0 else 1 + CommaAt(s[1..])
  }

  /**
   Cuts a joined string apart again at each comma, dropping the one blank
   that follows it: the inverse of `Join` for names without commas.
   */
  function Split(s: string): (parts: seq<string>)
    ensures |parts| > 0
    decreases |s|
  {
    var i := CommaAt(s);
    if i == |s| then [s]
    else
      var rest := s[i + 1..];
      [s[..i]] + Split(if rest != [] && rest[0] == ' ' then rest[1..] else rest)
  }

  lemma {:induction false} CommaAfterCommaFree(a: string, b: string)
    requires ',' !in a
    ensures CommaAt(a + b) == |a| + CommaAt(b)
  {
    if a != [] {
      assert (a + b)[0] == a[0] != ',';
      assert (a + b)[1..] == a[1..] + b;
      assert a == [a[0]] + a[1..];
      CommaAfterCommaFree(a[1..], b);
    } else {
      assert a + b == b;
    }
  }

  /** Splitting peels one comma-free name and its separator off the front. */
  lemma SplitAfterName(a: string, tail: string)
    requires ',' !in a
    ensures Split(a + Separator + tail) == [a] + Split(tail)
  {
    var s := a + Separator + tail;
    assert s == a + (Separator + tail);
    CommaAfterCommaFree(a, Separator + tail);
    var rest := s[|a| + 1..];
    assert s[..|a|] == a;
    assert rest == " " + tail;
    assert rest[1..] == tail;
  }

  /** Joining and splitting again gives back the names, when none holds a comma. */
  lemma {:induction false} SplitJoin(names: seq<string>)
    requires |names| > 0
    requires forall i :: 0 <= i < |names| ==> ',' !in names[i]
    ensures Split(Join(names)) == names
  {
    if |names| == 1 {
      CommaAfterCommaFree(names[0], "");
      assert names[0] + "" == names[0];
    } else {
      SplitAfterName(names[0], Join(names[1..]));
      SplitJoin(names[1..]);
      assert names == [names[0]] + names[1..];
    }
  }

  /** The feature names of a list of pairs, in order. */
  function Names(fs: seq<Feature>): (ns: seq<string>)
    ensures |ns| == |fs|
    ensures forall i :: 0 <= i < |fs| ==> ns[i] == fs[i].name
  {
    seq(|fs|, i requires 0 <= i < |fs| => fs[i].name)
  }

  /** The explanation's factor list: the names of the three highest-ranked features. */
  function TopFeatures(pairs: seq<Feature>): (s: string)
    ensures pairs == [] ==> s == ""
    ensures pairs != [] ==> Rank(pairs)[0].name <= s
  {
    Join(Names(Top(Rank(pairs), TopCount)))
  }

  /**
   The top-features string names exactly the first min(3, n) ranked pairs, in
   ranked order: splitting it gives their names back.
   */
  lemma TopFeaturesNamesTopRanked(pairs: seq<Feature>)
    requires |pairs| > 0
    requires forall i :: 0 <= i < |pairs| ==> ',' !in pairs[i].name
    ensures var top := Top(Rank(pairs), TopCount);
            |top| == (if |pairs| < TopCount then |pairs| else TopCount) &&
            Split(TopFeatures(pairs)) == Names(top)
  {
    var top := Top(Rank(pairs), TopCount);
    RankPermutes(pairs);
    forall i | 0 <= i < |top|
      ensures ',' !in top[i].name
    {
      assert top[i] == Rank(pairs)[i];
      assert top[i] in multiset(pairs);
    }
    SplitJoin(Names(top));
  }

  /** The family-history flag sent to the explanation service. */
  function GeneticFlag(relatives: int): (flag: string)
    ensures flag == "Yes" <==> relatives > 0
    ensures flag == "No" <==> relatives <= 0
  {
    if relatives > 0 then "Yes" else "No"
  }

  /**
   A negative count of relatives is not flagged as family history yet is
   amplified like two or more relatives.
   */
  lemma NegativeRelativesInconsistency(relatives: int)
    requires relatives < 0
    ensures GeneticFlag(relatives) == "No" && Multiplier(relatives) == 2.3
  {
  }

  /** What the handler computes before asking for an explanation. */
  datatype Assessment = Assessment(
    adjusted: real,       // adjusted_risk after the cap
    level: Label,         // level
    topFeatures: string,  // top_features
    geneticFlag: string)  // genetic_flag

  /**
   The handler's pipeline: multiplier, transform, cap, then category, ranking
   and flag. The reported risk never exceeds the ceiling, equals the
   transformed probability whenever that is at most the ceiling, and its
   category is the one of the uncapped value.
   */
  function Predict(p: real, relatives: int, pairs: seq<Feature>, transform: Transform): (a: Assessment)
    ensures a.adjusted <= Ceiling
    ensures transform(p, Multiplier(relatives)) <= Ceiling ==> a.adjusted == transform(p, Multiplier(relatives))
    ensures transform(p, Multiplier(relatives)) > Ceiling ==> a.adjusted == Ceiling
    ensures a.level == Categorise(transform(p, Multiplier(relatives)))
    ensures a.topFeatures == TopFeatures(pairs)
    ensures a.geneticFlag == "Yes" <==> relatives > 0
    ensures a.geneticFlag == "No" <==> relatives <= 0
  {
    var rr := Multiplier(relatives);
    var adjusted := Cap(transform(p, rr));
    Assessment(adjusted, Categorise(adjusted), TopFeatures(pairs), GeneticFlag(relatives))
  }
}
