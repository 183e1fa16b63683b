/**
 * The static per-crop knowledge base of the recommendation panel: optimal
 * nitrogen, pH and moisture ranges, and the general fertilizer and pest
 * management catalogs, each keyed by crop name, with a fallback for crops
 * the tables do not know.
 */
module KnowledgeBase {
  import opened SoilData

  /** A closed interval [low, high]. */
  datatype Range = Range(low: real, high: real) {
    predicate WellFormed() { low <= high }
    predicate Contains(v: real) { low <= v <= high }
  }

  /** The optimal ranges for one crop. */
  datatype Requirements = Requirements(nitrogen: Range, ph: Range, moisture: Range)
  {
    /** The range that applies to property `p`. */
    function RangeOf(p: Property): Range
    {
      match p
      case Nitrogen => nitrogen
      case Ph => ph
      case Moisture => moisture
    }

    predicate WellFormed()
    {
      nitrogen.WellFormed() && ph.WellFormed() && moisture.WellFormed()
    }
  }

  /** Everything the knowledge base holds for one crop. */
  datatype CropProfile = CropProfile(
    requirements: Requirements,
    fertilizers: seq<string>,
    pesticides: seq<string>)

  /** The ten crops the tables know, in the order the tables list them. */
  const Crops: seq<string> :=
    ["rice", "wheat", "corn", "tomato", "potato",
     "cotton", "sugarcane", "beans", "spinach", "cabbage"]

  const PlantRequirements: map<string, Requirements> := map[
    "rice" := Requirements(Range(2.0, 3.5), Range(5.5, 6.5), Range(80.0, 100.0)),
    "wheat" := Requirements(Range(2.5, 4.0), Range(6.0, 7.5), Range(40.0, 60.0)),
    "corn" := Requirements(Range(3.0, 5.0), Range(6.0, 6.8), Range(50.0, 70.0)),
    "tomato" := Requirements(Range(2.0, 3.0), Range(6.0, 6.8), Range(60.0, 80.0)),
    "potato" := Requirements(Range(1.5, 2.5), Range(5.2, 6.4), Range(65.0, 85.0)),
    "cotton" := Requirements(Range(2.5, 4.5), Range(5.8, 8.0), Range(50.0, 70.0)),
    "sugarcane" := Requirements(Range(3.5, 5.5), Range(6.5, 7.5), Range(70.0, 90.0)),
    "beans" := Requirements(Range(1.0, 2.0), Range(6.0, 7.0), Range(60.0, 80.0)),
    "spinach" := Requirements(Range(3.0, 4.5), Range(6.0, 7.0), Range(70.0, 85.0)),
    "cabbage" := Requirements(Range(2.5, 4.0), Range(6.0, 6.5), Range(65.0, 85.0))
  ]

  /** The ranges used for a crop the table does not list. */
  const DefaultRequirements: Requirements :=
    Requirements(Range(2.0, 4.0), Range(6.0, 7.0), Range(60.0, 80.0))

  const PlantFertilizers: map<string, seq<string>> := map[
    "rice" := ["NPK 20-10-10", "Potash", "Phosphate", "Zinc Sulfate"],
    "wheat" := ["DAP (18-46-0)", "NPK 12-32-16", "Potassium Chloride"],
    "corn" := ["NPK 15-15-15", "Starter Fertilizer 10-34-0", "Side-dress Nitrogen"],
    "tomato" := ["NPK 10-10-10", "Calcium Nitrate", "Magnesium Sulfate"],
    "potato" := ["NPK 8-24-24", "Potassium Sulfate", "Bone Meal"],
    "cotton" := ["NPK 15-5-10", "Boron", "Potassium Nitrate"],
    "sugarcane" := ["NPK 12-6-12", "Filter Press Mud", "Molasses"],
    "beans" := ["Phosphorus Fertilizer", "Potash", "Rhizobium Inoculant"],
    "spinach" := ["NPK 20-10-10", "Iron Chelate", "Nitrogen Boost"],
    "cabbage" := ["NPK 10-10-10", "Calcium", "Boron Supplement"]
  ]

  const PlantPesticides: map<string, seq<string>> := map[
    "rice" := ["Imidacloprid (for brown planthopper)", "Chlorpyrifos (for stem borer)", "Propiconazole (for blast)"],
    "wheat" := ["2,4-D (for broadleaf weeds)", "Pendimethalin (pre-emergence)", "Tebuconazole (for rust)"],
    "corn" := ["Atrazine (for weeds)", "Chlorpyrifos (for corn borer)", "Glyphosate (post-harvest)"],
    "tomato" := ["Imidacloprid (for whitefly)", "Mancozeb (for blight)", "Spinosad (for caterpillars)"],
    "potato" := ["Metalaxyl (for late blight)", "Imidacloprid (for aphids)", "Copper oxychloride"],
    "cotton" := ["Emamectin Benzoate (for bollworm)", "Thiamethoxam (for thrips)", "Propiconazole"],
    "sugarcane" := ["2,4-D (for weeds)", "Chlorpyrifos (for borers)", "Carbendazim (for red rot)"],
    "beans" := ["Pendimethalin (for weeds)", "Lambda-cyhalothrin (for pod borer)", "Copper fungicide"],
    "spinach" := ["Spinosad (for leaf miners)", "Bacillus thuringiensis (for caterpillars)", "Neem oil"],
    "cabbage" := ["Deltamethrin (for diamondback moth)", "Chlorpyrifos (for aphids)", "Copper sulfate"]
  ]

  /** The ranges for `plant`: its table entry, or the default. Never fails. */
  function RequirementsFor(plant: string): (r: Requirements)
    ensures plant in PlantRequirements ==> r == PlantRequirements[plant]
    ensures plant !in PlantRequirements ==> r == DefaultRequirements
    ensures r.WellFormed()
  {
    if plant in PlantRequirements then PlantRequirements[plant] else DefaultRequirements
  }

  /** The crop's general fertilizer catalog, empty for an unknown crop. */
  function FertilizerCatalog(plant: string): (r: seq<string>)
    ensures plant in PlantFertilizers ==> r == PlantFertilizers[plant]
    ensures plant !in PlantFertilizers ==> r == []
  {
    if plant in PlantFertilizers then PlantFertilizers[plant] else []
  }

  /** The crop's general pest-management catalog, empty for an unknown crop. */
  function PesticideCatalog(plant: string): (r: seq<string>)
    ensures plant in PlantPesticides ==> r == PlantPesticides[plant]
    ensures plant !in PlantPesticides ==> r == []
  {
    if plant in PlantPesticides then PlantPesticides[plant] else []
  }

  /**
   * The three tables know exactly the same ten crops, so a crop has either
   * a full profile (ranges and both catalogs) or none of it.
   */
  lemma TablesAgree()
    ensures PlantRequirements.Keys == set c | c in Crops
    ensures PlantFertilizers.Keys == PlantRequirements.Keys
    ensures PlantPesticides.Keys == PlantRequirements.Keys
  {
  }

  /** An unknown crop gets the default ranges and two empty catalogs. */
  lemma UnknownCropProfile(plant: string)
    requires plant !in Crops
    ensures RequirementsFor(plant) == Requirements(Range(2.0, 4.0), Range(6.0, 7.0), Range(60.0, 80.0))
    ensures FertilizerCatalog(plant) == [] && PesticideCatalog(plant) == []
  {
    TablesAgree();
  }

  /** The whole profile of `plant`, assembled from the three tables. */
  function ProfileFor(plant: string): CropProfile
  {
    CropProfile(RequirementsFor(plant), FertilizerCatalog(plant), PesticideCatalog(plant))
  }
}
