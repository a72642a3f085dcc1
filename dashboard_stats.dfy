/** The four stat cards of the dashboard (src/components/dashboard/DashboardStats.tsx): each value is
    coloured by where it lies in its ideal range. */
module DashboardStats {
  import opened Wrappers

  datatype StatusColor = Destructive | WarningColor | SuccessColor

  /** The CSS class of each colour. */
  function ClassName(c: StatusColor): string {
    match c
    case Destructive => "text-destructive"
    case WarningColor => "text-warning"
    case SuccessColor => "text-success"
  }

  /** `getStatusColor(value, min, max)`: out of range is destructive; in range but within 2 of either
      bound is a warning; anything else is success. */
  function StatusColorOf(value: real, min: real, max: real): (c: StatusColor)
    ensures c == Destructive <==> value < min || value > max
    ensures c == WarningColor <==> min <= value <= max && (value <= min + 2.0 || value >= max - 2.0)
    ensures c == SuccessColor <==> min + 2.0 < value < max - 2.0
  {
    if value < min || value > max then Destructive
    else if value <= min + 2.0 || value >= max - 2.0 then WarningColor
    else SuccessColor
  }

  /** A success colour needs a range wider than 4: pH (5.5 to 6.5) and EC (1.2 to 2.0) never get it. */
  lemma SuccessNeedsWideRange(value: real, min: real, max: real)
    ensures StatusColorOf(value, min, max) == SuccessColor ==> max - min > 4.0
    ensures StatusColorOf(value, PhMin, PhMax) != SuccessColor
    ensures StatusColorOf(value, EcMin, EcMax) != SuccessColor
  {
  }

  const TempMin := 20.0
  const TempMax := 28.0
  const HumidityMin := 50.0
  const HumidityMax := 70.0
  const PhMin := 5.5
  const PhMax := 6.5
  const EcMin := 1.2
  const EcMax := 2.0

  /** `latestReading?.field || 0`: a missing reading, a null field and 0 all count as 0. */
  function ValueOrZero(v: Option<real>): (r: real)
    ensures v.Some? ==> r == v.value
    ensures v.None? ==> r == 0.0
  {
    if v.Some? then v.value else 0.0
  }

  /** The fields of the latest reading the cards show; `None` for a missing reading or a null field. */
  datatype Latest = Latest(airTemp: Option<real>, humidity: Option<real>, ph: Option<real>, ec: Option<real>)

  /** The colours of the four cards: temperature, humidity, pH and EC. */
  function CardColors(latest: Latest): (colors: seq<StatusColor>)
    ensures |colors| == 4
    ensures colors[0] == StatusColorOf(ValueOrZero(latest.airTemp), TempMin, TempMax)
    ensures colors[1] == StatusColorOf(ValueOrZero(latest.humidity), HumidityMin, HumidityMax)
    ensures colors[2] == StatusColorOf(ValueOrZero(latest.ph), PhMin, PhMax)
    ensures colors[3] == StatusColorOf(ValueOrZero(latest.ec), EcMin, EcMax)
  {
    [StatusColorOf(ValueOrZero(latest.airTemp), TempMin, TempMax),
     StatusColorOf(ValueOrZero(latest.humidity), HumidityMin, HumidityMax),
     StatusColorOf(ValueOrZero(latest.ph), PhMin, PhMax),
     StatusColorOf(ValueOrZero(latest.ec), EcMin, EcMax)]
  }

  /** With no reading every card is shown as out of range, since 0 lies below every lower bound;
      pH and EC cards are never green. */
  lemma NoReadingIsDestructive()
    ensures forall i :: 0 <= i < 4 ==> CardColors(Latest(None, None, None, None))[i] == Destructive
  {
  }

  /** The text a card shows: `toFixed(digits)` of the value, or "--" when the field is missing. */
  function DisplayValue(v: Option<real>, digits: nat, fixed: (real, nat) -> string): (s: string)
    ensures v.None? ==> s == "--"
    ensures v.Some? && fixed(v.value, digits) != "" ==> s == fixed(v.value, digits)
  {
    if v.Some? && fixed(v.value, digits) != "" then fixed(v.value, digits) else "--"
  }
}
