/**
 * The recommendation engine: classifies the latest reading's nitrogen, pH
 * and moisture against the crop's optimal ranges and builds the alerts,
 * confirmations ("positives"), prioritized recommendations and product
 * lists shown in the recommendations panel.
 */
module Recommendations {
  import opened Wrappers
  import opened SoilData
  import opened KnowledgeBase

  /** Where a value lies relative to an optimal range. */
  datatype Level = Deficient | Optimal | Excess

  datatype Priority = High | Medium

  /** An out-of-range alert, as a tag: the property and its direction. */
  datatype Alert = Alert(property: Property, level: Level)

  /** A remedial action for one out-of-range property. */
  datatype Recommendation = Recommendation(
    property: Property,
    level: Level,
    title: string,
    priority: Priority)

  /** Everything the panel derives from one reading. */
  datatype Diagnosis = Diagnosis(
    plant: string,
    alerts: seq<Alert>,
    positives: seq<Property>,
    recommendations: seq<Recommendation>,
    fertilizers: seq<string>,
    pesticides: seq<string>)

  /** Products added when nitrogen is below range. */
  const NitrogenFertilizers: seq<string> :=
    ["Urea (46-0-0)", "Ammonium Sulfate (21-0-0)", "Calcium Ammonium Nitrate"]
  /** Products added when the soil is too acidic. */
  const LimingMaterials: seq<string> := ["Agricultural Lime", "Dolomitic Lime", "Wood Ash"]
  /** Products added when the soil is too alkaline. */
  const AcidifyingAmendments: seq<string> := ["Sulfur", "Peat Moss", "Compost"]
  /** Pest-management entries added when moisture is above range. */
  const OverwateringTreatments: seq<string> :=
    ["Copper Fungicide", "Mancozeb", "Proper drainage system"]

  /**
   * Classification with inclusive bounds: below the low bound is checked
   * first, then above the high bound; anything else is optimal.
   */
  function Classify(v: real, r: Range): (l: Level)
    ensures l == Deficient <==> v < r.low
    ensures l == Excess <==> r.low <= v && r.high < v
    ensures l == Optimal <==> r.Contains(v)
  {
    if v < r.low then Deficient
    else if v > r.high then Excess
    else Optimal
  }

  /** Deficient below optimal below excess. */
  function Severity(l: Level): int
  {
    match l
    case Deficient => -1
    case Optimal => 0
    case Excess => 1
  }

  /** A larger value never classifies lower, whatever the range. */
  lemma ClassifyMonotone(v: real, w: real, r: Range)
    requires v <= w
    ensures Severity(Classify(v, r)) <= Severity(Classify(w, r))
  {
  }

  /** The level of property `p` of reading `s` against the ranges `req`. */
  function LevelOf(s: SoilReading, req: Requirements, p: Property): Level
  {
    Classify(Value(s, p), req.RangeOf(p))
  }

  function TitleOf(p: Property, l: Level): string
    requires l != Optimal
  {
    match (p, l)
    case (Nitrogen, Deficient) => "Nitrogen Deficiency"
    case (Nitrogen, Excess) => "Excess Nitrogen"
    case (Ph, Deficient) => "Soil Too Acidic"
    case (Ph, Excess) => "Soil Too Alkaline"
    case (Moisture, Deficient) => "Insufficient Moisture"
    case (Moisture, Excess) => "Overwatering Risk"
  }

  /** Nitrogen and moisture excess are medium; every other deviation is high. */
  function PriorityOf(p: Property, l: Level): Priority
    requires l != Optimal
  {
    match (p, l)
    case (Nitrogen, Deficient) => High
    case (Nitrogen, Excess) => Medium
    case (Ph, _) => High
    case (Moisture, Deficient) => High
    case (Moisture, Excess) => Medium
  }

  /** The fertilizers a deviation adds: nitrogen deficiency, acidic soil and alkaline soil add three each. */
  function TriggeredFertilizers(p: Property, l: Level): seq<string>
  {
    match (p, l)
    case (Nitrogen, Deficient) => NitrogenFertilizers
    case (Ph, Deficient) => LimingMaterials
    case (Ph, Excess) => AcidifyingAmendments
    case _ => []
  }

  /** The pest-management entries a deviation adds: only overwatering adds any. */
  function TriggeredPesticides(p: Property, l: Level): seq<string>
  {
    if p == Moisture && l == Excess then OverwateringTreatments else []
  }

  /** What the analysis of one property adds to each list. */
  datatype Contribution = Contribution(
    alerts: seq<Alert>,
    positives: seq<Property>,
    recommendations: seq<Recommendation>,
    fertilizers: seq<string>,
    pesticides: seq<string>)

  /**
   * One property's branch: an out-of-range level yields one alert and its
   * recommendation (plus any triggered products); an optimal level yields
   * one positive and nothing else.
   */
  function AnalyzeProperty(p: Property, l: Level): (c: Contribution)
    ensures |c.alerts| + |c.positives| == 1
    ensures |c.recommendations| == |c.alerts|
    ensures c.positives == [] <==> l != Optimal
    ensures forall i | 0 <= i < |c.alerts| :: c.alerts[i] == Alert(p, l) && l != Optimal
    ensures forall i | 0 <= i < |c.positives| :: c.positives[i] == p
    ensures forall i | 0 <= i < |c.recommendations| ::
      l != Optimal && c.recommendations[i] == Recommendation(p, l, TitleOf(p, l), PriorityOf(p, l))
    ensures c.fertilizers == TriggeredFertilizers(p, l)
    ensures c.pesticides == TriggeredPesticides(p, l)
    ensures l == Optimal ==> c.fertilizers == [] && c.pesticides == []
  {
    if l == Optimal then
      Contribution([], [p], [], [], [])
    else
      Contribution([Alert(p, l)], [],
                   [Recommendation(p, l, TitleOf(p, l), PriorityOf(p, l))],
                   TriggeredFertilizers(p, l), TriggeredPesticides(p, l))
  }

  /** A list of properties in strict nitrogen, pH, moisture order. */
  predicate InPropertyOrder(ps: seq<Property>)
  {
    forall i, j | 0 <= i < j < |ps| :: Rank(ps[i]) < Rank(ps[j])
  }

  function AlertProperties(alerts: seq<Alert>): (ps: seq<Property>)
    ensures |ps| == |alerts|
    ensures forall i | 0 <= i < |alerts| :: ps[i] == alerts[i].property
  {
    seq(|alerts|, i requires 0 <= i < |alerts| => alerts[i].property)
  }

  /**
   * The analysis of a present reading against a crop profile: three
   * independent branches, then the profile's catalogs after the triggered
   * products.
   */
  function Assess(s: SoilReading, profile: CropProfile): Diagnosis
  {
    var req := profile.requirements;
    var n := AnalyzeProperty(Nitrogen, LevelOf(s, req, Nitrogen));
    var h := AnalyzeProperty(Ph, LevelOf(s, req, Ph));
    var m := AnalyzeProperty(Moisture, LevelOf(s, req, Moisture));
    Diagnosis(
      s.plant,
      n.alerts + h.alerts + m.alerts,
      n.positives + h.positives + m.positives,
      n.recommendations + h.recommendations + m.recommendations,
      n.fertilizers + h.fertilizers + m.fertilizers + profile.fertilizers,
      n.pesticides + h.pesticides + m.pesticides + profile.pesticides)
  }

  /** The analysis of a present reading against the knowledge base entry of its crop. */
  function Analyse(s: SoilReading): Diagnosis
  {
    Assess(s, ProfileFor(s.plant))
  }

  /** The panel: no reading means no analysis at all. */
  function Diagnose(reading: Option<SoilReading>): (r: Option<Diagnosis>)
    ensures r.None? <==> reading.None?
    ensures r.Some? ==> r.value.plant == reading.value.plant
  {
    match reading
    case None => None
    case Some(s) => Some(Analyse(s))
  }

  // ---------------------------------------------------------------------
  // Properties of the analysis
  // ---------------------------------------------------------------------

  /** Concatenating two ordered lists, the first wholly before the second, keeps the order. */
  lemma OrderedConcat(a: seq<Property>, b: seq<Property>)
    requires InPropertyOrder(a) && InPropertyOrder(b)
    requires forall i, j | 0 <= i < |a| && 0 <= j < |b| :: Rank(a[i]) < Rank(b[j])
    ensures InPropertyOrder(a + b)
  {
    forall i, j | 0 <= i < j < |a + b|
      ensures Rank((a + b)[i]) < Rank((a + b)[j])
    {
      if j < |a| {
        assert (a + b)[i] == a[i] && (a + b)[j] == a[j];
      } else if i < |a| {
        assert (a + b)[i] == a[i] && (a + b)[j] == b[j - |a|];
      } else {
        assert (a + b)[i] == b[i - |a|] && (a + b)[j] == b[j - |a|];
      }
    }
  }

  /** Three contributions, each about its own property, concatenate in property order. */
  lemma ThreeInOrder(n: seq<Property>, h: seq<Property>, m: seq<Property>)
    requires |n| <= 1 && |h| <= 1 && |m| <= 1
    requires forall i | 0 <= i < |n| :: n[i] == Nitrogen
    requires forall i | 0 <= i < |h| :: h[i] == Ph
    requires forall i | 0 <= i < |m| :: m[i] == Moisture
    ensures InPropertyOrder(n + h + m)
  {
    OrderedConcat(n, h);
    var nh := n + h;
    assert forall i | 0 <= i < |nh| :: nh[i] in n || nh[i] in h;
    OrderedConcat(nh, m);
  }

  /**
   * Each property gets exactly one verdict: it is a positive exactly when it
   * is in range, and it has an alert (with its actual direction) exactly when
   * it is not.
   */
  lemma {:induction false} OneVerdictPerProperty(s: SoilReading, profile: CropProfile)
    ensures var d, req := Assess(s, profile), profile.requirements;
      && |d.alerts| + |d.positives| == 3
      && (forall p :: p in d.positives <==> LevelOf(s, req, p) == Optimal)
      && (forall a :: a in d.alerts <==> a.level == LevelOf(s, req, a.property) && a.level != Optimal)
  {
    var req := profile.requirements;
    var n := AnalyzeProperty(Nitrogen, LevelOf(s, req, Nitrogen));
    var h := AnalyzeProperty(Ph, LevelOf(s, req, Ph));
    var m := AnalyzeProperty(Moisture, LevelOf(s, req, Moisture));
    var d := Assess(s, profile);
    assert d.alerts == n.alerts + h.alerts + m.alerts;
    assert d.positives == n.positives + h.positives + m.positives;
    forall p
      ensures p in d.positives <==> LevelOf(s, req, p) == Optimal
    {
      match p
      case Nitrogen => assert p !in h.positives && p !in m.positives;
      case Ph => assert p !in n.positives && p !in m.positives;
      case Moisture => assert p !in n.positives && p !in h.positives;
    }
    forall a
      ensures a in d.alerts <==> a.level == LevelOf(s, req, a.property) && a.level != Optimal
    {
      match a.property
      case Nitrogen => assert a !in h.alerts && a !in m.alerts;
      case Ph => assert a !in n.alerts && a !in m.alerts;
      case Moisture => assert a !in n.alerts && a !in h.alerts;
    }
  }

  /** The positives of the three branches concatenate in property order. */
  lemma {:induction false} PositivesInOrder(ln: Level, lh: Level, lm: Level)
    ensures InPropertyOrder(AnalyzeProperty(Nitrogen, ln).positives + AnalyzeProperty(Ph, lh).positives
                            + AnalyzeProperty(Moisture, lm).positives)
  {
    ThreeInOrder(AnalyzeProperty(Nitrogen, ln).positives, AnalyzeProperty(Ph, lh).positives, AnalyzeProperty(Moisture, lm).positives);
  }

  lemma AlertPropertiesConcat(a: seq<Alert>, b: seq<Alert>)
    ensures AlertProperties(a + b) == AlertProperties(a) + AlertProperties(b)
  {
  }

  /** The alerts of the three branches concatenate in property order. */
  lemma {:induction false} AlertsInOrder(ln: Level, lh: Level, lm: Level)
    ensures InPropertyOrder(AlertProperties(AnalyzeProperty(Nitrogen, ln).alerts + AnalyzeProperty(Ph, lh).alerts
                                            + AnalyzeProperty(Moisture, lm).alerts))
  {
    var n, h, m := AnalyzeProperty(Nitrogen, ln).alerts, AnalyzeProperty(Ph, lh).alerts, AnalyzeProperty(Moisture, lm).alerts;
    AlertPropertiesConcat(n, h);
    AlertPropertiesConcat(n + h, m);
    ThreeInOrder(AlertProperties(n), AlertProperties(h), AlertProperties(m));
  }

  /** Alerts and positives both keep nitrogen, pH, moisture order. */
  lemma VerdictsInPropertyOrder(s: SoilReading, profile: CropProfile)
    ensures InPropertyOrder(Assess(s, profile).positives)
    ensures InPropertyOrder(AlertProperties(Assess(s, profile).alerts))
  {
    var req := profile.requirements;
    PositivesInOrder(LevelOf(s, req, Nitrogen), LevelOf(s, req, Ph), LevelOf(s, req, Moisture));
    AlertsInOrder(LevelOf(s, req, Nitrogen), LevelOf(s, req, Ph), LevelOf(s, req, Moisture));
  }

  /**
   * Recommendations pair one-to-one with alerts, in the same order, and each
   * carries the title and priority of its property and direction.
   */
  lemma RecommendationPerAlert(s: SoilReading, profile: CropProfile)
    ensures var d := Assess(s, profile);
      && |d.recommendations| == |d.alerts|
      && forall i | 0 <= i < |d.alerts| ::
           var rec := d.recommendations[i];
           && rec.property == d.alerts[i].property
           && rec.level == d.alerts[i].level
           && rec.level != Optimal
           && rec.title == TitleOf(rec.property, rec.level)
           && rec.priority == PriorityOf(rec.property, rec.level)
  {
  }

  /**
   * The priority table: medium exactly for nitrogen excess and moisture
   * excess; nitrogen deficiency, acidic and alkaline soil and low moisture
   * are high.
   */
  lemma PriorityTable(s: SoilReading, profile: CropProfile)
    ensures forall rec | rec in Assess(s, profile).recommendations ::
      rec.priority == Medium <==> rec.level == Excess && rec.property != Ph
    ensures forall rec | rec in Assess(s, profile).recommendations ::
      rec.priority == High <==> rec.level == Deficient || rec.property == Ph
  {
    RecommendationPerAlert(s, profile);
  }

  /**
   * The product lists are the condition-triggered entries, in property order,
   * followed by the crop's whole catalog, with nothing removed.
   */
  lemma ProductLists(s: SoilReading, profile: CropProfile)
    ensures var d, req := Assess(s, profile), profile.requirements;
      && d.fertilizers == TriggeredFertilizers(Nitrogen, LevelOf(s, req, Nitrogen))
                        + TriggeredFertilizers(Ph, LevelOf(s, req, Ph))
                        + profile.fertilizers
      && d.pesticides == TriggeredPesticides(Moisture, LevelOf(s, req, Moisture))
                        + profile.pesticides
  {
  }

  /** A catalog that names none of `products`. */
  predicate Avoids(catalog: seq<string>, products: seq<string>)
  {
    forall x | x in products :: x !in catalog
  }

  /** A fertilizer catalog that names none of the triggered fertilizer strings. */
  predicate FertilizersKeptApart(catalog: seq<string>)
  {
    Avoids(catalog, NitrogenFertilizers) && Avoids(catalog, LimingMaterials)
    && Avoids(catalog, AcidifyingAmendments)
  }

  /** A pest-management catalog that names none of the triggered overwatering strings. */
  predicate PesticidesKeptApart(catalog: seq<string>)
  {
    Avoids(catalog, OverwateringTreatments)
  }

  lemma CatalogsAvoidNitrogenFertilizers()
    ensures forall c | c in PlantFertilizers.Values :: Avoids(c, NitrogenFertilizers)
  {
  }

  lemma CatalogsAvoidLimingMaterials()
    ensures forall c | c in PlantFertilizers.Values :: Avoids(c, LimingMaterials)
  {
  }

  lemma CatalogsAvoidAcidifyingAmendments()
    ensures forall c | c in PlantFertilizers.Values :: Avoids(c, AcidifyingAmendments)
  {
  }

  lemma FertilizerCatalogsKeptApart()
    ensures forall c | c in PlantFertilizers.Values :: FertilizersKeptApart(c)
  {
    CatalogsAvoidNitrogenFertilizers();
    CatalogsAvoidLimingMaterials();
    CatalogsAvoidAcidifyingAmendments();
  }

  lemma PesticideCatalogsKeptApart()
    ensures forall c | c in PlantPesticides.Values :: PesticidesKeptApart(c)
  {
  }

  /** No crop catalog of the knowledge base names any of the triggered strings. */
  lemma CatalogsAvoidTriggeredProducts(plant: string)
    ensures FertilizersKeptApart(FertilizerCatalog(plant))
    ensures PesticidesKeptApart(PesticideCatalog(plant))
  {
    FertilizerCatalogsKeptApart();
    PesticideCatalogsKeptApart();
    if plant in PlantFertilizers {
      assert PlantFertilizers[plant] in PlantFertilizers.Values;
    }
    if plant in PlantPesticides {
      assert PlantPesticides[plant] in PlantPesticides.Values;
    }
  }

  /** The string "Urea (46-0-0)" is listed exactly when nitrogen is below range. */
  lemma UreaTrigger(s: SoilReading, profile: CropProfile)
    requires FertilizersKeptApart(profile.fertilizers)
    ensures "Urea (46-0-0)" in Assess(s, profile).fertilizers
        <==> LevelOf(s, profile.requirements, Nitrogen) == Deficient
  {
    var req := profile.requirements;
    var ln, lh := LevelOf(s, req, Nitrogen), LevelOf(s, req, Ph);
    ProductLists(s, profile);
    assert "Urea (46-0-0)" in NitrogenFertilizers;
    assert "Urea (46-0-0)" !in profile.fertilizers;
    assert "Urea (46-0-0)" !in TriggeredFertilizers(Ph, lh);
  }

  /** The string "Agricultural Lime" is listed exactly when the soil is too acidic. */
  lemma LimeTrigger(s: SoilReading, profile: CropProfile)
    requires FertilizersKeptApart(profile.fertilizers)
    ensures "Agricultural Lime" in Assess(s, profile).fertilizers
        <==> LevelOf(s, profile.requirements, Ph) == Deficient
  {
    var req := profile.requirements;
    var ln, lh := LevelOf(s, req, Nitrogen), LevelOf(s, req, Ph);
    ProductLists(s, profile);
    assert "Agricultural Lime" in LimingMaterials;
    assert "Agricultural Lime" !in profile.fertilizers;
    assert "Agricultural Lime" !in TriggeredFertilizers(Nitrogen, ln);
    assert "Agricultural Lime" !in AcidifyingAmendments;
  }

  /** The string "Sulfur" is listed exactly when the soil is too alkaline. */
  lemma SulfurTrigger(s: SoilReading, profile: CropProfile)
    requires FertilizersKeptApart(profile.fertilizers)
    ensures "Sulfur" in Assess(s, profile).fertilizers
        <==> LevelOf(s, profile.requirements, Ph) == Excess
  {
    var req := profile.requirements;
    var ln, lh := LevelOf(s, req, Nitrogen), LevelOf(s, req, Ph);
    ProductLists(s, profile);
    assert "Sulfur" in AcidifyingAmendments;
    assert "Sulfur" !in profile.fertilizers;
    assert "Sulfur" !in TriggeredFertilizers(Nitrogen, ln);
    assert "Sulfur" !in LimingMaterials;
  }

  /** The string "Copper Fungicide" is listed exactly when moisture is above range. */
  lemma FungicideTrigger(s: SoilReading, profile: CropProfile)
    requires PesticidesKeptApart(profile.pesticides)
    ensures "Copper Fungicide" in Assess(s, profile).pesticides
        <==> LevelOf(s, profile.requirements, Moisture) == Excess
  {
    ProductLists(s, profile);
    assert "Copper Fungicide" in OverwateringTreatments;
    assert "Copper Fungicide" !in profile.pesticides;
  }

  /**
   * Each condition adds its products exactly when it holds, for every crop
   * of the knowledge base and every unknown crop.
   */
  lemma TriggeredProducts(s: SoilReading)
    ensures var d, req := Analyse(s), RequirementsFor(s.plant);
      && ("Urea (46-0-0)" in d.fertilizers <==> LevelOf(s, req, Nitrogen) == Deficient)
      && ("Agricultural Lime" in d.fertilizers <==> LevelOf(s, req, Ph) == Deficient)
      && ("Sulfur" in d.fertilizers <==> LevelOf(s, req, Ph) == Excess)
      && ("Copper Fungicide" in d.pesticides <==> LevelOf(s, req, Moisture) == Excess)
  {
    var profile := ProfileFor(s.plant);
    CatalogsAvoidTriggeredProducts(s.plant);
    UreaTrigger(s, profile);
    LimeTrigger(s, profile);
    SulfurTrigger(s, profile);
    FungicideTrigger(s, profile);
  }

  /**
   * Nitrogen excess adds no fertilizer, so the list is the pH products then the
   * catalog; low moisture adds no pest-management entry, so that list is the catalog.
   */
  lemma SilentDeviations(s: SoilReading, profile: CropProfile)
    ensures var d, req := Assess(s, profile), profile.requirements;
      LevelOf(s, req, Nitrogen) == Excess ==>
        d.fertilizers == TriggeredFertilizers(Ph, LevelOf(s, req, Ph)) + profile.fertilizers
    ensures var d, req := Assess(s, profile), profile.requirements;
      LevelOf(s, req, Moisture) == Deficient ==> d.pesticides == profile.pesticides
  {
    ProductLists(s, profile);
    var req := profile.requirements;
    var ph := TriggeredFertilizers(Ph, LevelOf(s, req, Ph));
    if LevelOf(s, req, Nitrogen) == Excess {
      assert TriggeredFertilizers(Nitrogen, Excess) + ph == ph;
    }
    if LevelOf(s, req, Moisture) == Deficient {
      assert TriggeredPesticides(Moisture, Deficient) + profile.pesticides == profile.pesticides;
    }
  }

  /** A value on either bound of its (well-formed) range is a positive, not an alert. */
  lemma BoundsAreInclusive(s: SoilReading, profile: CropProfile, p: Property)
    requires var r := profile.requirements.RangeOf(p);
      r.WellFormed() && (Value(s, p) == r.low || Value(s, p) == r.high)
    ensures p in Assess(s, profile).positives
    ensures forall a | a in Assess(s, profile).alerts :: a.property != p
  {
    OneVerdictPerProperty(s, profile);
  }

  /** A rice reading low in nitrogen and moisture, with pH on the upper bound. */
  lemma RiceExample()
    ensures var d := Analyse(SoilReading("1", "2024-01-01", 1.0, 6.5, 70.0, "rice"));
      && d.alerts == [Alert(Nitrogen, Deficient), Alert(Moisture, Deficient)]
      && d.positives == [Ph]
      && d.recommendations == [Recommendation(Nitrogen, Deficient, "Nitrogen Deficiency", High),
                               Recommendation(Moisture, Deficient, "Insufficient Moisture", High)]
      && d.fertilizers == NitrogenFertilizers + ["NPK 20-10-10", "Potash", "Phosphate", "Zinc Sulfate"]
  {
    var s := SoilReading("1", "2024-01-01", 1.0, 6.5, 70.0, "rice");
    var req := RequirementsFor("rice");
    assert LevelOf(s, req, Nitrogen) == Deficient;
    assert LevelOf(s, req, Ph) == Optimal;
    assert LevelOf(s, req, Moisture) == Deficient;
  }

  /**
   * The beans catalog names copper fungicide as "Copper fungicide", so an
   * overwatered beans reading lists the product under both spellings.
   */
  lemma OverwateredBeans(s: SoilReading)
    requires s.plant == "beans" && s.moisture > 80.0
    ensures "Copper Fungicide" in Analyse(s).pesticides
    ensures "Copper fungicide" in Analyse(s).pesticides
  {
    var profile := ProfileFor(s.plant);
    assert profile.requirements.moisture == Range(60.0, 80.0);
    ProductLists(s, profile);
    assert "Copper fungicide" in profile.pesticides;
    assert LevelOf(s, profile.requirements, Moisture) == Excess;
  }

  /** A crop outside the tables falls back to the default ranges and empty catalogs. */
  lemma UnknownCropExample()
    ensures var d := Analyse(SoilReading("2", "2024-01-02", 3.0, 9.0, 50.0, "unknown-crop"));
      && d.alerts == [Alert(Ph, Excess), Alert(Moisture, Deficient)]
      && d.positives == [Nitrogen]
      && d.recommendations == [Recommendation(Ph, Excess, "Soil Too Alkaline", High),
                               Recommendation(Moisture, Deficient, "Insufficient Moisture", High)]
      && d.fertilizers == AcidifyingAmendments
      && d.pesticides == []
  {
    var s := SoilReading("2", "2024-01-02", 3.0, 9.0, 50.0, "unknown-crop");
    UnknownCropProfile("unknown-crop");
    var req := RequirementsFor("unknown-crop");
    assert LevelOf(s, req, Nitrogen) == Optimal;
    assert LevelOf(s, req, Ph) == Excess;
    assert LevelOf(s, req, Moisture) == Deficient;
  }
}
