/**
 * The soil-data entry form: four text fields, the enabling rule of the
 * submit button, and the submit handler that validates the parsed values
 * against their domains before handing a new reading over and clearing
 * the form.
 */
module SoilForm {
  import opened Wrappers
  import opened SoilData
  import KnowledgeBase

  /** The raw text of the four inputs. */
  datatype FormState = FormState(nitrogen: string, ph: string, moisture: string, plant: string)

  /** The form as first shown, and again after a successful submit. */
  const EmptyForm: FormState := FormState("", "", "", "")

  /** The crop names the plant selector offers, in the order it offers them. */
  const SelectablePlants: seq<string> :=
    ["rice", "wheat", "corn", "tomato", "potato",
     "cotton", "sugarcane", "beans", "spinach", "cabbage"]

  /** The submit button is enabled exactly when no field is empty. */
  predicate IsValid(f: FormState)
  {
    f.nitrogen != "" && f.ph != "" && f.moisture != "" && f.plant != ""
  }

  /** What a submit does: the form afterwards and the reading handed over, if any. */
  datatype SubmitOutcome = SubmitOutcome(form: FormState, submitted: Option<NewReading>)

  /**
   * The submit handler. `parse` stands for the number parser: `None` is a
   * text that does not parse to a number.
   */
  function HandleSubmit(f: FormState, parse: string -> Option<real>): (r: SubmitOutcome)
    ensures r.submitted.Some? <==>
      && parse(f.nitrogen).Some? && parse(f.ph).Some? && parse(f.moisture).Some?
      && f.plant != ""
      && InDomain(parse(f.nitrogen).value, parse(f.ph).value, parse(f.moisture).value)
    ensures r.submitted.Some? ==>
      r.submitted.value == NewReading(parse(f.nitrogen).value, parse(f.ph).value,
                                      parse(f.moisture).value, f.plant)
    ensures r.submitted.Some? ==> r.form == EmptyForm
    ensures r.submitted.None? ==> r.form == f
  {
    var nitrogen, ph, moisture := parse(f.nitrogen), parse(f.ph), parse(f.moisture);
    if nitrogen.None? || ph.None? || moisture.None? || f.plant == "" then
      SubmitOutcome(f, None)
    else if nitrogen.value < 0.0 || nitrogen.value > 100.0 || ph.value < 0.0 || ph.value > 14.0
         || moisture.value < 0.0 || moisture.value > 100.0 then
      SubmitOutcome(f, None)
    else
      SubmitOutcome(EmptyForm, Some(NewReading(nitrogen.value, ph.value, moisture.value, f.plant)))
  }

  /**
   * With a parser that rejects the empty text, anything that is submitted
   * came from a form whose submit button was enabled, and the form it leaves
   * behind has the button disabled again.
   */
  lemma SubmittedFormWasValid(f: FormState, parse: string -> Option<real>)
    requires parse("").None?
    requires HandleSubmit(f, parse).submitted.Some?
    ensures IsValid(f)
    ensures !IsValid(HandleSubmit(f, parse).form)
  {
  }

  /** Every submitted reading lies in the sensor domains. */
  lemma SubmittedReadingInDomain(f: FormState, parse: string -> Option<real>)
    requires HandleSubmit(f, parse).submitted.Some?
    ensures var d := HandleSubmit(f, parse).submitted.value;
      InDomain(d.nitrogen, d.ph, d.moisture)
  {
  }

  /** Every crop the selector offers has a full profile in the knowledge base. */
  lemma SelectablePlantsHaveProfiles()
    ensures forall c | c in SelectablePlants ::
      && c in KnowledgeBase.PlantRequirements
      && c in KnowledgeBase.PlantFertilizers
      && c in KnowledgeBase.PlantPesticides
    ensures |SelectablePlants| == 10
    ensures (set c | c in SelectablePlants) == KnowledgeBase.PlantRequirements.Keys
  {
    KnowledgeBase.TablesAgree();
  }
}
