/**
 * The reading record shared by every component: one soil-sensor capture
 * with its identifier, its capture date and the crop it was taken for.
 */
module SoilData {

  /** One stored reading, newest first in the log. */
  datatype SoilReading = SoilReading(
    id: string,
    date: string,
    nitrogen: real,
    ph: real,
    moisture: real,
    plant: string)

  /** A reading as the form hands it over: everything but id and date. */
  datatype NewReading = NewReading(
    nitrogen: real,
    ph: real,
    moisture: real,
    plant: string)

  /** The three measured properties of a reading. */
  datatype Property = Nitrogen | Ph | Moisture

  /** The property order every list of the engine follows. */
  const Properties: seq<Property> := [Nitrogen, Ph, Moisture]

  function Rank(p: Property): (k: nat)
    ensures k < |Properties| && Properties[k] == p
  {
    match p
    case Nitrogen => 0
    case Ph => 1
    case Moisture => 2
  }

  /** The measured value of property `p` in reading `s`. */
  function Value(s: SoilReading, p: Property): real
  {
    match p
    case Nitrogen => s.nitrogen
    case Ph => s.ph
    case Moisture => s.moisture
  }

  /** The inclusive sensor domains: nitrogen and moisture in [0,100], pH in [0,14]. */
  predicate InDomain(nitrogen: real, ph: real, moisture: real)
  {
    0.0 <= nitrogen <= 100.0 && 0.0 <= ph <= 14.0 && 0.0 <= moisture <= 100.0
  }
}
