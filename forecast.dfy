/** The forecast series behind the 5-day chart: one date and one average
    temperature per forecast day of the provider's payload, in the unit the
    user picked. */
module Forecast {

  /** One entry of the payload's `forecast.forecastday` list: its `date`
      and its `day.avgtemp_c` and `day.avgtemp_f`. */
  datatype ForecastDay = ForecastDay(date: string, avgTempC: real, avgTempF: real)

  /** The two options of the unit radio button. */
  const CelsiusChoice := "Celsius (°C)"
  const FahrenheitChoice := "Fahrenheit (°F)"

  /** `unit_choice.startswith("Celsius")`. */
  predicate IsCelsius(unitChoice: string): (celsius: bool)
    ensures celsius <==> |unitChoice| >= 7 && unitChoice[..7] == "Celsius"
  {
    "Celsius" <= unitChoice
  }

  lemma ChoicesSelectUnit()
    ensures IsCelsius(CelsiusChoice)
    ensures !IsCelsius(FahrenheitChoice)
  {
    assert FahrenheitChoice[0] != "Celsius"[0];
  }

  /** Walks the forecast days in order and appends each day's date to
      `dates` and its average temperature in the chosen unit to `temps`. */
  method ForecastSeries(days: seq<ForecastDay>, unitChoice: string)
    returns (dates: seq<string>, temps: seq<real>)
    ensures |dates| == |days| && |temps| == |days|
    ensures forall i :: 0 <= i < |days| ==> dates[i] == days[i].date
    ensures forall i :: 0 <= i < |days| ==>
              temps[i] == if IsCelsius(unitChoice) then days[i].avgTempC else days[i].avgTempF
  {
    dates, temps := [], [];
    for k := 0 to |days|
      invariant |dates| == k && |temps| == k
      invariant forall i :: 0 <= i < k ==> dates[i] == days[i].date
      invariant forall i :: 0 <= i < k ==>
                  temps[i] == if IsCelsius(unitChoice) then days[i].avgTempC else days[i].avgTempF
    {
      var day := days[k];
      if IsCelsius(unitChoice) {
        temps := temps + [day.avgTempC];
      } else {
        temps := temps + [day.avgTempF];
      }
      dates := dates + [day.date];
    }
  }
}
