/** Units of measurement: the host's metric/imperial choice, the provider's
    unit code and the 7-tuple of unit labels selected from it. */
module Units {
  import opened Const

  /** The Home Assistant unit constants the integration uses. */
  datatype Unit =
    | Celsius | Fahrenheit
    | Millimeters | Inches | Meters | Feet
    | KilometersPerHour | MilesPerHour
    | Mbar | InHg
    | MillimetersPerHour | InchesPerHour
    | Percentage | WattsPerSquareMeter | UvIndex | Degree

  /** The label Home Assistant displays for each unit. */
  function Label(u: Unit): string {
    match u
    case Celsius => "°C"
    case Fahrenheit => "°F"
    case Millimeters => "mm"
    case Inches => "in"
    case Meters => "m"
    case Feet => "ft"
    case KilometersPerHour => "km/h"
    case MilesPerHour => "mph"
    case Mbar => "mbar"
    case InHg => "inHg"
    case MillimetersPerHour => "mm/h"
    case InchesPerHour => "in/h"
    case Percentage => "%"
    case WattsPerSquareMeter => "W/m²"
    case UvIndex => "UV index"
    case Degree => "°"
  }

  /** What a unit measures. A precipitation depth (mm, in) and an altitude
      (m, ft) are kept apart, as the tuple keeps them at separate positions. */
  datatype Quantity = Temperature | Length | Altitude | Speed | Pressure | Rate | Ratio | Other

  function QuantityOf(u: Unit): Quantity {
    match u
    case Celsius | Fahrenheit => Temperature
    case Millimeters | Inches => Length
    case Meters | Feet => Altitude
    case KilometersPerHour | MilesPerHour => Speed
    case Mbar | InHg => Pressure
    case MillimetersPerHour | InchesPerHour => Rate
    case Percentage => Ratio
    case _ => Other
  }

  predicate IsMetric(u: Unit) {
    u in {Celsius, Millimeters, Meters, KilometersPerHour, Mbar, MillimetersPerHour}
  }

  predicate IsImperial(u: Unit) {
    u in {Fahrenheit, Inches, Feet, MilesPerHour, InHg, InchesPerHour}
  }

  /** The units-of-measurement tuple the data object selects from the API unit code. */
  function UnitsOfMeasurement(unitSystemApi: string): (t: seq<Unit>)
    ensures |t| == 7
    ensures QuantityOf(t[TEMPUNIT]) == Temperature && QuantityOf(t[LENGTHUNIT]) == Length
    ensures QuantityOf(t[ALTITUDEUNIT]) == Altitude && QuantityOf(t[SPEEDUNIT]) == Speed
    ensures QuantityOf(t[PRESSUREUNIT]) == Pressure && QuantityOf(t[RATE]) == Rate
    ensures t[PERCENTAGEUNIT] == Percentage
    ensures forall i :: 0 <= i < 7 && i != PERCENTAGEUNIT ==>
      (unitSystemApi == "m" ==> IsMetric(t[i])) && (unitSystemApi != "m" ==> IsImperial(t[i]))
  {
    if unitSystemApi == "m" then
      [Celsius, Millimeters, Meters, KilometersPerHour, Mbar, MillimetersPerHour, Percentage]
    else
      [Fahrenheit, Inches, Feet, MilesPerHour, InHg, InchesPerHour, Percentage]
  }

  /** A quantity and a unit system fix the unit, so the contract of
      `UnitsOfMeasurement` pins every position of the tuple. */
  lemma UnitOfQuantity(u: Unit, v: Unit)
    requires IsMetric(u) || IsImperial(u)
    requires IsMetric(v) || IsImperial(v)
    requires QuantityOf(u) == QuantityOf(v) && (IsMetric(u) <==> IsMetric(v))
    ensures u == v
  {
  }

  /** The metric and the imperial tuple differ at every position but the percentage. */
  lemma TuplesShareOnlyPercentage(other: string)
    requires other != "m"
    ensures forall i :: 0 <= i < 7 ==>
      (UnitsOfMeasurement("m")[i] == UnitsOfMeasurement(other)[i] <==> i == PERCENTAGEUNIT)
  {
  }

  /** The provider unit code and the nested observation key chosen for a host:
      `('m', 'metric')` for a metric host, `('e', 'imperial')` otherwise. */
  function UnitSystemChoice(hostIsMetric: bool): (choice: (string, string))
    ensures choice.0 == "m" <==> hostIsMetric
    ensures choice.1 == "metric" <==> hostIsMetric
    ensures choice.0 in {"m", "e"} && choice.1 in {"metric", "imperial"}
  {
    if hostIsMetric then ("m", "metric") else ("e", "imperial")
  }

  /** The unit code and the observation key always agree, and the tuple built
      from the code is the metric one exactly for a metric host. */
  lemma ChoiceAgrees(hostIsMetric: bool)
    ensures UnitSystemChoice(hostIsMetric).0 == "m" <==> UnitSystemChoice(hostIsMetric).1 == "metric"
    ensures IsMetric(UnitsOfMeasurement(UnitSystemChoice(hostIsMetric).0)[TEMPUNIT]) <==> hostIsMetric
  {
  }
}
