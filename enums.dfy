/**
 * The closed enumerations of the weather catalog: the weather variables a query can ask for,
 * the grid resolutions, and the query frequency.
 */
module Enums {
  import opened Wrappers

  /** `WeatherVariable`: five members, each with a fixed string value. */
  datatype WeatherVariable = Temperature | Pressure | Humidity | WindU | WindV
  {
    /** The member's `.value`, the name a variable has in query parameters and in output columns. */
    function Value(): string
    {
      match this
      case Temperature => "temperature"
      case Pressure => "pressure"
      case Humidity => "humidity"
      case WindU => "wind_u"
      case WindV => "wind_v"
    }
  }

  /** The members in declaration order, as iterating over the enumeration yields them. */
  const AllVariables: seq<WeatherVariable> := [Temperature, Pressure, Humidity, WindU, WindV]

  /** `[x.value for x in WeatherVariable]`: the member values in declaration order. */
  function VariableValues(): (vs: seq<string>)
    ensures |vs| == |AllVariables|
    ensures forall i :: 0 <= i < |vs| ==> vs[i] == AllVariables[i].Value()
  {
    seq(|AllVariables|, i requires 0 <= i < |AllVariables| => AllVariables[i].Value())
  }

  /** `WeatherVariable(s)`: the member whose value is `s`, if any (lookup by value). */
  function VariableFromValue(s: string): (r: Option<WeatherVariable>)
    ensures r.Some? ==> r.value.Value() == s
    ensures r.None? ==> forall v: WeatherVariable :: v.Value() != s
  {
    if s == "temperature" then Some(Temperature)
    else if s == "pressure" then Some(Pressure)
    else if s == "humidity" then Some(Humidity)
    else if s == "wind_u" then Some(WindU)
    else if s == "wind_v" then Some(WindV)
    else None
  }

  /** The enumeration has exactly the five members of `AllVariables`, each once. */
  lemma AllVariablesExact(v: WeatherVariable)
    ensures v in AllVariables
    ensures forall i, j :: 0 <= i < j < |AllVariables| ==> AllVariables[i] != AllVariables[j]
  {
  }

  /** Distinct members have distinct values, so looking a value up gives its member back. */
  lemma ValueInjective(v: WeatherVariable, w: WeatherVariable)
    ensures v.Value() == w.Value() <==> v == w
    ensures VariableFromValue(v.Value()) == Some(v)
  {
  }

  /** The member values listed in declaration order are the five literal strings, each once. */
  lemma VariableValuesExact()
    ensures VariableValues() == ["temperature", "pressure", "humidity", "wind_u", "wind_v"]
    ensures forall i, j :: 0 <= i < j < |VariableValues()| ==> VariableValues()[i] != VariableValues()[j]
  {
  }

  /** `Resolution`: the grid spacings a query can name. */
  datatype Resolution = Res3km | Res5km | Res10km | Res25km | Res50km
  {
    function Value(): string
    {
      match this
      case Res3km => "3km"
      case Res5km => "5km"
      case Res10km => "10km"
      case Res25km => "25km"
      case Res50km => "50km"
    }
  }

  /** The five resolutions have five different values. */
  lemma ResolutionValueInjective(a: Resolution, b: Resolution)
    ensures a.Value() == b.Value() <==> a == b
  {
  }

  /** The query frequency; its enumeration is not part of this model, so it is carried by value. */
  datatype Frequency = Frequency(value: string)
}
