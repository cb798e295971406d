/**
 * Colour classification of a polygon: the mean of its temperature samples
 * is compared against the selected source's rules in order, and the first
 * rule that holds gives the fill colour.
 */
module Classification {

  import opened Common
  import opened Geometry
  import opened Types

  /** The neutral fill used when nothing matches. */
  const DefaultColor := "#94a3b8"
  const Blue := "#3b82f6"
  const Amber := "#f59e0b"
  const Red := "#ef4444"

  /** The rules every source is created with: below 10, at least 10, at least 25. */
  const BuiltInRules := [
    ColorRule(Less, 10.0, Blue),
    ColorRule(GreaterOrEqual, 10.0, Amber),
    ColorRule(GreaterOrEqual, 25.0, Red)
  ]

  /** The source the dashboard starts with. */
  const OpenMeteo := DataSource(1, "Open-Meteo", "temperature_2m", BuiltInRules)

  /**
   * The mean temperature. `None` stands for the NaN that `0 / 0` yields on
   * an empty sample list.
   */
  function AverageTemperature(samples: seq<real>): (avg: Option<real>)
    ensures avg.None? <==> samples == []
    ensures avg.Some? ==> avg.value == Mean(samples)
  {
    if samples == [] then None else Some(Mean(samples))
  }

  /**
   * Whether a rule fires for the average. A NaN average satisfies no
   * comparison, and `'='` has no branch, so an `Equal` rule never fires.
   * Otherwise a rule fires iff the average lies on the side its operator
   * names; exactly at the threshold only `<=` and `>=` fire.
   */
  predicate Holds(rule: ColorRule, avg: Option<real>)
    ensures avg.None? || rule.operator == Equal ==> !Holds(rule, avg)
    ensures avg.Some? && (rule.operator == Less || rule.operator == LessOrEqual) && avg.value != rule.threshold ==>
              (Holds(rule, avg) <==> avg.value < rule.threshold)
    ensures avg.Some? && (rule.operator == Greater || rule.operator == GreaterOrEqual) && avg.value != rule.threshold ==>
              (Holds(rule, avg) <==> avg.value > rule.threshold)
    ensures avg == Some(rule.threshold) ==>
              (Holds(rule, avg) <==> rule.operator == LessOrEqual || rule.operator == GreaterOrEqual)
  {
    match avg
    case None => false
    case Some(v) =>
      match rule.operator
      case Less => v < rule.threshold
      case Greater => v > rule.threshold
      case LessOrEqual => v <= rule.threshold
      case GreaterOrEqual => v >= rule.threshold
      case Equal => false
  }

  /** Rule `i` fires and no earlier rule does. */
  predicate FirstMatch(rules: seq<ColorRule>, avg: Option<real>, i: int) {
    0 <= i < |rules| && Holds(rules[i], avg) &&
    forall j :: 0 <= j < i ==> !Holds(rules[j], avg)
  }

  predicate NoMatch(rules: seq<ColorRule>, avg: Option<real>) {
    forall j :: 0 <= j < |rules| ==> !Holds(rules[j], avg)
  }

  /** First-match classification: the colour of the first rule that fires, else the default. */
  function Classify(rules: seq<ColorRule>, avg: Option<real>): (color: string)
    ensures forall i :: FirstMatch(rules, avg, i) ==> color == rules[i].color
    ensures NoMatch(rules, avg) ==> color == DefaultColor
    decreases |rules|
  {
    if rules == [] then DefaultColor
    else if Holds(rules[0], avg) then rules[0].color
    else
      assert forall i :: FirstMatch(rules, avg, i) ==> FirstMatch(rules[1..], avg, i - 1);
      Classify(rules[1..], avg)
  }

  /** Exactly one of the two cases of `Classify`'s contract applies to any rule list. */
  lemma {:induction false} MatchOrNoMatch(rules: seq<ColorRule>, avg: Option<real>)
    ensures NoMatch(rules, avg) || exists i :: FirstMatch(rules, avg, i)
    ensures NoMatch(rules, avg) ==> forall i :: !FirstMatch(rules, avg, i)
  {
    if rules != [] && !Holds(rules[0], avg) {
      MatchOrNoMatch(rules[1..], avg);
      if !NoMatch(rules, avg) {
        var i :| FirstMatch(rules[1..], avg, i);
        assert FirstMatch(rules, avg, i + 1);
      }
    } else if rules != [] {
      assert FirstMatch(rules, avg, 0);
    }
  }

  /**
   * `getPolygonColor`'s result as a function of the polygon's samples and
   * the selected source (`None` when no source is selected).
   */
  function PolygonColor(weatherData: seq<real>, selected: Option<DataSource>): (color: string)
    ensures selected.None? || weatherData == [] ==> color == DefaultColor
    ensures selected.Some? && weatherData != [] ==>
              color == Classify(selected.value.colorRules, Some(Mean(weatherData)))
  {
    if selected.None? then DefaultColor
    else Classify(selected.value.colorRules, AverageTemperature(weatherData))
  }

  /** The source's early-return loop over the rules. */
  method GetPolygonColor(polygon: Polygon, selected: Option<DataSource>) returns (color: string)
    ensures color == PolygonColor(polygon.weatherData, selected)
  {
    if selected.None? {
      return DefaultColor;
    }
    var rules := selected.value.colorRules;
    var avgTemp := AverageTemperature(polygon.weatherData);
    var i := 0;
    while i < |rules|
      invariant 0 <= i <= |rules|
      invariant Classify(rules[i..], avgTemp) == Classify(rules, avgTemp)
    {
      var rule := rules[i];
      assert rules[i..][1..] == rules[i + 1..];
      if avgTemp.Some? {
        var v := avgTemp.value;
        if rule.operator == Less && v < rule.threshold { return rule.color; }
        if rule.operator == Greater && v > rule.threshold { return rule.color; }
        if rule.operator == LessOrEqual && v <= rule.threshold { return rule.color; }
        if rule.operator == GreaterOrEqual && v >= rule.threshold { return rule.color; }
      }
      i := i + 1;
    }
    return DefaultColor;
  }

  /** The rules left when every `Equal` rule is dropped. */
  function WithoutEqual(rules: seq<ColorRule>): (r: seq<ColorRule>)
    ensures |r| <= |rules|
    ensures forall k :: 0 <= k < |r| ==> r[k].operator != Equal
  {
    if rules == [] then []
    else if rules[0].operator == Equal then WithoutEqual(rules[1..])
    else [rules[0]] + WithoutEqual(rules[1..])
  }

  /** An `Equal` rule never decides a colour, even when the average equals its threshold. */
  lemma {:induction false} EqualRulesAreInert(rules: seq<ColorRule>, avg: Option<real>)
    ensures Classify(WithoutEqual(rules), avg) == Classify(rules, avg)
  {
    if rules != [] {
      EqualRulesAreInert(rules[1..], avg);
      if rules[0].operator != Equal {
        assert (WithoutEqual(rules))[1..] == WithoutEqual(rules[1..]);
      }
    }
  }

  /**
   * With the built-in rules every average is blue or amber: `>= 10` comes
   * before `>= 25`, so the red rule can never fire first.
   */
  lemma BuiltInRulesNeverRed(v: real)
    ensures Classify(BuiltInRules, Some(v)) == if v < 10.0 then Blue else Amber
    ensures Classify(BuiltInRules, Some(v)) != Red
  {
    if v < 10.0 {
      assert FirstMatch(BuiltInRules, Some(v), 0);
    } else {
      assert FirstMatch(BuiltInRules, Some(v), 1);
    }
  }

  /** Rule order decides overlapping cases: at 10 the `>= 10` rule wins over a later `<= 10`. */
  lemma FirstRuleWinsOnOverlap(a: string, b: string)
    ensures Classify([ColorRule(GreaterOrEqual, 10.0, a), ColorRule(LessOrEqual, 10.0, b)], Some(10.0)) == a
    ensures Classify([ColorRule(LessOrEqual, 10.0, b), ColorRule(GreaterOrEqual, 10.0, a)], Some(10.0)) == b
  {
    assert FirstMatch([ColorRule(GreaterOrEqual, 10.0, a), ColorRule(LessOrEqual, 10.0, b)], Some(10.0), 0);
    assert FirstMatch([ColorRule(LessOrEqual, 10.0, b), ColorRule(GreaterOrEqual, 10.0, a)], Some(10.0), 0);
  }

}
