/** The scenario simulator panel: estimates the carbon, cost and time impact of
    a logistics scenario from its form, and stores the scenario. */
module ScenarioSimulator {
  import opened Wrappers
  import opened JsNumbers
  import opened Backend

  /** One row of a modifier table: a multiplier per impact dimension. */
  datatype Modifier = Modifier(carbon: real, cost: real, time: real)

  /** The multiplier used for a key that is absent from its table. */
  const Neutral := Modifier(1.0, 1.0, 1.0)

  const RouteModifiers: map<string, Modifier> := map[
    "direct" := Modifier(1.0, 1.2, 1.0),
    "optimized" := Modifier(0.7, 0.9, 0.85),
    "eco-friendly" := Modifier(0.6, 1.1, 1.1),
    "express" := Modifier(1.3, 1.5, 0.7)
  ]

  const FreightModifiers: map<string, Modifier> := map[
    "truck" := Modifier(1.0, 1.0, 1.0),
    "rail" := Modifier(0.4, 0.8, 1.5),
    "ship" := Modifier(0.3, 0.6, 3.0),
    "air" := Modifier(2.5, 3.0, 0.3)
  ]

  const SupplierModifiers: map<string, Modifier> := map[
    "excellent" := Modifier(0.8, 1.1, 0.9),
    "good" := Modifier(0.9, 1.0, 1.0),
    "average" := Modifier(1.0, 1.0, 1.1),
    "poor" := Modifier(1.2, 0.9, 1.3)
  ]

  /** `table[key] || { carbon: 1, cost: 1, time: 1 }`. */
  function Lookup(table: map<string, Modifier>, key: string): Modifier
  {
    if key in table then table[key] else Neutral
  }

  predicate Positive(m: Modifier)
  {
    m.carbon > 0.0 && m.cost > 0.0 && m.time > 0.0
  }

  /** Three impact figures: kg CO2, currency units and hours. */
  datatype Impacts = Impacts(carbon: real, cost: real, time: real)

  /** The base quantities before any modifier is applied. */
  function Base(distance: real, weight: real): Impacts
  {
    Impacts(distance * weight * 0.1, distance * 0.5 + weight * 0.2, distance * 0.02)
  }

  /** The impact formula on already-coerced numbers: each base quantity scaled by
      the route, freight and supplier modifiers of its dimension. */
  function Estimate(distance: real, weight: real, routeType: string, freightType: string, supplierScore: string): Impacts
  {
    var base := Base(distance, weight);
    var r := Lookup(RouteModifiers, routeType);
    var f := Lookup(FreightModifiers, freightType);
    var s := Lookup(SupplierModifiers, supplierScore);
    Impacts(base.carbon * r.carbon * f.carbon * s.carbon,
            base.cost * r.cost * f.cost * s.cost,
            base.time * r.time * f.time * s.time)
  }

  /** The scenario form; every field holds the raw text the user entered. */
  datatype ScenarioForm = ScenarioForm(
    name: string, description: string, routeType: string, freightType: string,
    supplierScore: string, distance: string, weight: string)

  const EmptyForm := ScenarioForm("", "", "", "", "", "", "")

  /** `calculateImpacts`: distance and weight are read with `parseFloat(...) || 0`. */
  function CalculateImpacts(form: ScenarioForm): Impacts
  {
    Estimate(OrZero(ParseFloat(form.distance)), OrZero(ParseFloat(form.weight)),
             form.routeType, form.freightType, form.supplierScore)
  }

  /** Every row of every table, and the neutral default, is positive. */
  lemma {:induction false} LookupPositive(table: map<string, Modifier>, key: string)
    requires table == RouteModifiers || table == FreightModifiers || table == SupplierModifiers
    ensures Positive(Lookup(table, key))
  {
    if key in table {
      assert forall k :: k in table ==> Positive(table[k]);
    }
  }

  lemma ProductNonNegative(b: real, x: real, y: real, z: real)
    requires b >= 0.0 && x > 0.0 && y > 0.0 && z > 0.0
    ensures b * x * y * z >= 0.0
  {
    assert b * x >= 0.0;
    assert b * x * y >= 0.0;
  }

  /** With non-negative distance and weight no impact is negative, whatever the keys. */
  lemma EstimateNonNegative(distance: real, weight: real, routeType: string, freightType: string, supplierScore: string)
    requires distance >= 0.0 && weight >= 0.0
    ensures var i := Estimate(distance, weight, routeType, freightType, supplierScore);
            i.carbon >= 0.0 && i.cost >= 0.0 && i.time >= 0.0
  {
    var base := Base(distance, weight);
    var r := Lookup(RouteModifiers, routeType);
    var f := Lookup(FreightModifiers, freightType);
    var s := Lookup(SupplierModifiers, supplierScore);
    LookupPositive(RouteModifiers, routeType);
    LookupPositive(FreightModifiers, freightType);
    LookupPositive(SupplierModifiers, supplierScore);
    BaseNonNegative(distance, weight);
    ScaledNonNegative(base, r, f, s);
  }

  lemma BaseNonNegative(distance: real, weight: real)
    requires distance >= 0.0 && weight >= 0.0
    ensures var b := Base(distance, weight); b.carbon >= 0.0 && b.cost >= 0.0 && b.time >= 0.0
  {
    assert distance * weight >= 0.0;
  }

  lemma ScaledNonNegative(base: Impacts, r: Modifier, f: Modifier, s: Modifier)
    requires base.carbon >= 0.0 && base.cost >= 0.0 && base.time >= 0.0
    requires Positive(r) && Positive(f) && Positive(s)
    ensures base.carbon * r.carbon * f.carbon * s.carbon >= 0.0
    ensures base.cost * r.cost * f.cost * s.cost >= 0.0
    ensures base.time * r.time * f.time * s.time >= 0.0
  {
    ProductNonNegative(base.carbon, r.carbon, f.carbon, s.carbon);
    ProductNonNegative(base.cost, r.cost, f.cost, s.cost);
    ProductNonNegative(base.time, r.time, f.time, s.time);
  }

  /** Keys that no table knows (the initial "" among them) leave the base quantities as they are. */
  lemma UnknownKeysGiveBase(distance: real, weight: real, routeType: string, freightType: string, supplierScore: string)
    requires routeType !in RouteModifiers && freightType !in FreightModifiers && supplierScore !in SupplierModifiers
    ensures Estimate(distance, weight, routeType, freightType, supplierScore) == Base(distance, weight)
  {
  }

  /** The initial, empty form estimates every impact as exactly 0. */
  lemma EmptyFormIsZero()
    ensures CalculateImpacts(EmptyForm) == Impacts(0.0, 0.0, 0.0)
  {
    NoDigitIsNaN("");
    UnknownKeysGiveBase(0.0, 0.0, "", "", "");
  }

  /** Time depends on the distance and the keys only, never on the weight. */
  lemma TimeIgnoresWeight(distance: real, w1: real, w2: real, routeType: string, freightType: string, supplierScore: string)
    ensures Estimate(distance, w1, routeType, freightType, supplierScore).time
         == Estimate(distance, w2, routeType, freightType, supplierScore).time
  {
  }

  /** No distance or no weight means no carbon. */
  lemma CarbonZeroWithoutLoad(distance: real, weight: real, routeType: string, freightType: string, supplierScore: string)
    requires distance == 0.0 || weight == 0.0
    ensures Estimate(distance, weight, routeType, freightType, supplierScore).carbon == 0.0
  {
    assert distance * weight == 0.0;
  }

  /** With no weight the cost comes from the distance alone: half the distance,
      scaled by the three cost modifiers. */
  lemma CostWithoutWeight(distance: real, routeType: string, freightType: string, supplierScore: string)
    ensures Estimate(distance, 0.0, routeType, freightType, supplierScore).cost
         == distance * 0.5 * Lookup(RouteModifiers, routeType).cost
            * Lookup(FreightModifiers, freightType).cost * Lookup(SupplierModifiers, supplierScore).cost
  {
  }

  /** A distance or weight field with no digit in it counts as 0. */
  lemma UnparsableFieldIsZero(text: string)
    requires NoDigits(text)
    ensures OrZero(ParseFloat(text)) == 0.0
  {
    NoDigitIsNaN(text);
  }

  /** Distance 1000 and weight 10 on an optimized route by rail with a good
      supplier give 252 kg CO2, 361.44 in cost and 25.5 hours. */
  lemma WorkedExample()
    ensures CalculateImpacts(ScenarioForm("", "", "optimized", "rail", "good", "1000", "10"))
         == Impacts(252.0, 361.44, 25.5)
  {
    var form := ScenarioForm("", "", "optimized", "rail", "good", "1000", "10");
    ParsesThousand();
    ParsesTen();
    assert OrZero(ParseFloat(form.distance)) == 1000.0;
    assert OrZero(ParseFloat(form.weight)) == 10.0;
    EstimateWorkedExample();
  }

  lemma TenValue()
    ensures DigitsValue("10") == 10
  {
    assert "10"[..1] == "1" && "1"[..0] == "";
  }

  lemma ParsesTen()
    ensures ParseFloat("10") == Finite(10.0)
  {
    TenValue();
    DigitsParse("10");
  }

  lemma ParsesThousand()
    ensures ParseFloat("1000") == Finite(1000.0)
  {
    TenValue();
    assert DigitsValue("100") == 100 by { assert "100"[..2] == "10"; }
    assert DigitsValue("1000") == 1000 by { assert "1000"[..3] == "100"; }
    DigitsParse("1000");
  }

  lemma EstimateWorkedExample()
    ensures Estimate(1000.0, 10.0, "optimized", "rail", "good") == Impacts(252.0, 361.44, 25.5)
  {
    assert Lookup(RouteModifiers, "optimized") == Modifier(0.7, 0.9, 0.85);
    assert Lookup(FreightModifiers, "rail") == Modifier(0.4, 0.8, 1.5);
    assert Lookup(SupplierModifiers, "good") == Modifier(0.9, 1.0, 1.0);
    assert Base(1000.0, 10.0) == Impacts(1000.0, 502.0, 20.0);
  }

  /** How an impact figure is drawn on a scenario card. */
  datatype ImpactKind = Carbon | Cost | Time
  datatype TrendIcon = TrendingDown | TrendingUp

  /** `getImpactColor`: carbon is good below 50 and bad from 100; cost and
      time are good below 100 and bad from 200. */
  function ImpactColor(impact: real, kind: ImpactKind): string
  {
    if kind == Carbon then
      (if impact < 50.0 then "text-success" else if impact < 100.0 then "text-warning" else "text-destructive")
    else
      (if impact < 100.0 then "text-success" else if impact < 200.0 then "text-warning" else "text-destructive")
  }

  /** `getImpactIcon`. */
  function ImpactIcon(impact: real, kind: ImpactKind): TrendIcon
  {
    var isGood := if kind == Carbon then impact < 50.0 else impact < 100.0;
    if isGood then TrendingDown else TrendingUp
  }

  /** The icon points down exactly when the colour is the success colour. */
  lemma IconAgreesWithColor(impact: real, kind: ImpactKind)
    ensures ImpactIcon(impact, kind) == TrendingDown <==> ImpactColor(impact, kind) == "text-success"
  {
  }

  /** A larger impact never gets a better colour. */
  function ColorRank(color: string): nat
  {
    if color == "text-success" then 0 else if color == "text-warning" then 1 else 2
  }

  lemma ColorMonotone(a: real, b: real, kind: ImpactKind)
    requires a <= b
    ensures ColorRank(ImpactColor(a, kind)) <= ColorRank(ImpactColor(b, kind))
  {
  }

  /** A stored scenario as the list shows it. */
  datatype Scenario = Scenario(
    id: string, name: string, description: string,
    carbonImpact: real, costImpact: real, timeImpact: real, createdAt: string)

  /** The row `handleSubmit` inserts: the raw form strings and the three impacts. */
  datatype ScenarioInsert = ScenarioInsert(
    userId: string, name: string, description: string,
    routeType: string, distance: string, freightType: string, weight: string,
    supplierScore: string, carbonImpact: real, costImpact: real, timeImpact: real)

  function InsertFor(userId: string, form: ScenarioForm): (r: ScenarioInsert)
    ensures Impacts(r.carbonImpact, r.costImpact, r.timeImpact) == CalculateImpacts(form)
    ensures r.name == form.name && r.description == form.description
    ensures r.routeType == form.routeType && r.distance == form.distance
    ensures r.freightType == form.freightType && r.weight == form.weight
    ensures r.supplierScore == form.supplierScore && r.userId == userId
  {
    var impacts := CalculateImpacts(form);
    ScenarioInsert(userId, form.name, form.description, form.routeType, form.distance,
                   form.freightType, form.weight, form.supplierScore,
                   impacts.carbon, impacts.cost, impacts.time)
  }

  /** The component's state. */
  class Simulator {
    var scenarios: seq<Scenario>
    var showCreateForm: bool
    var loading: bool
    var formData: ScenarioForm

    constructor ()
      ensures scenarios == [] && !showCreateForm && !loading && formData == EmptyForm
    {
      scenarios := [];
      showCreateForm := false;
      loading := false;
      formData := EmptyForm;
    }

    /** `fetchScenarios`: the rows replace the list; a failed read keeps it. */
    method FetchScenarios(result: Read<Scenario>)
      modifies this`scenarios
      ensures scenarios == if result.Rows? then result.rows else old(scenarios)
    {
      if result.Rows? {
        scenarios := result.rows;
      }
    }

    /** `handleSubmit`: computes the impacts, asks for the user, inserts the row.
        `session` and `write` are what the backend answered; `inserted` is the
        row sent to it, if the call was reached. The list refresh that follows a
        success is `FetchScenarios`. */
    method HandleSubmit(session: Session, write: Write) returns (inserted: Option<ScenarioInsert>)
      modifies this`loading, this`formData, this`showCreateForm
      ensures !loading
      ensures inserted == if session.SignedIn? then Some(InsertFor(session.userId, old(formData))) else None
      ensures session.SignedIn? && write.Written? ==> formData == EmptyForm && !showCreateForm
      ensures !(session.SignedIn? && write.Written?) ==>
                formData == old(formData) && showCreateForm == old(showCreateForm)
    {
      loading := true;
      inserted := None;
      if session.SignedIn? {
        inserted := Some(InsertFor(session.userId, formData));
        if write.Written? {
          formData := EmptyForm;
          showCreateForm := false;
        }
      }
      loading := false;
    }
  }
}
