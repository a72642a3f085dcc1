/** The alerts panel (src/components/dashboard/AlertsPanel.tsx): the newest reading checked against
    fixed ideal ranges, one alert per parameter out of range, or a single all-clear message. */
module AlertsPanel {
  import opened Wrappers
  import opened Store

  datatype AlertKind = Warning | Danger | Success
  datatype Icon = TrendingUp | TrendingDown | AlertCircle | CheckCircle
  datatype Alert = Alert(kind: AlertKind, message: string, icon: Icon)

  const AllClear := Alert(Success, "Todos os parâmetros estão dentro do ideal", CheckCircle)

  /** `toFixed(digits)`, left uninterpreted. */
  type Fixed = (real, nat) -> string

  function TemperatureAlerts(airTemp: real, fixed: Fixed): (r: seq<Alert>)
    ensures |r| <= 1 && forall a :: a in r ==> a.kind != Success
    ensures r != [] <==> airTemp > 28.0 || airTemp < 20.0
    ensures airTemp > 28.0 ==> r == [Alert(Warning, "Temperatura acima do ideal: " + fixed(airTemp, 1) + "°C", TrendingUp)]
    ensures airTemp < 20.0 ==> r == [Alert(Warning, "Temperatura abaixo do ideal: " + fixed(airTemp, 1) + "°C", TrendingDown)]
  {
    if airTemp > 28.0 then [Alert(Warning, "Temperatura acima do ideal: " + fixed(airTemp, 1) + "°C", TrendingUp)]
    else if airTemp < 20.0 then [Alert(Warning, "Temperatura abaixo do ideal: " + fixed(airTemp, 1) + "°C", TrendingDown)]
    else []
  }

  function HumidityAlerts(humidity: real, fixed: Fixed): (r: seq<Alert>)
    ensures |r| <= 1 && forall a :: a in r ==> a.kind != Success
    ensures r != [] <==> humidity > 70.0 || humidity < 50.0
    ensures humidity > 70.0 ==> r == [Alert(Warning, "Umidade alta: " + fixed(humidity, 1) + "%", AlertCircle)]
    ensures humidity < 50.0 ==> r == [Alert(Warning, "Umidade baixa: " + fixed(humidity, 1) + "%", AlertCircle)]
  {
    if humidity > 70.0 then [Alert(Warning, "Umidade alta: " + fixed(humidity, 1) + "%", AlertCircle)]
    else if humidity < 50.0 then [Alert(Warning, "Umidade baixa: " + fixed(humidity, 1) + "%", AlertCircle)]
    else []
  }

  function PhAlerts(ph: real, fixed: Fixed): (r: seq<Alert>)
    ensures |r| <= 1 && forall a :: a in r ==> a.kind != Success
    ensures r != [] <==> ph > 6.5 || ph < 5.5
    ensures r != [] ==> r[0].kind == Danger
    ensures r != [] ==> r == [Alert(Danger, "pH fora do ideal: " + fixed(ph, 2), AlertCircle)]
  {
    if ph > 6.5 || ph < 5.5 then [Alert(Danger, "pH fora do ideal: " + fixed(ph, 2), AlertCircle)] else []
  }

  function EcAlerts(ec: real, fixed: Fixed): (r: seq<Alert>)
    ensures |r| <= 1 && forall a :: a in r ==> a.kind != Success
    ensures r != [] <==> ec > 2.0 || ec < 1.2
    ensures r != [] ==> r[0].kind == Warning
    ensures r != [] ==> r == [Alert(Warning, "EC fora do ideal: " + fixed(ec, 2) + " mS/cm", AlertCircle)]
  {
    if ec > 2.0 || ec < 1.2 then [Alert(Warning, "EC fora do ideal: " + fixed(ec, 2) + " mS/cm", AlertCircle)] else []
  }

  /** Every parameter of the reading lies in its ideal range. */
  predicate AllInRange(r: Reading) {
    20.0 <= r.airTemp <= 28.0 && 50.0 <= r.humidity <= 70.0 && 5.5 <= r.ph <= 6.5 && 1.2 <= r.ec <= 2.0
  }

  /** The alerts for one reading: temperature, humidity, pH and EC in that order, or the all-clear
      message when none fired. */
  function AlertsFor(latest: Reading, fixed: Fixed): (alerts: seq<Alert>)
    ensures 1 <= |alerts| <= 4
    ensures alerts == [AllClear] <==> AllInRange(latest)
    ensures !AllInRange(latest) ==> AllClear !in alerts
    ensures !AllInRange(latest) ==>
      alerts == TemperatureAlerts(latest.airTemp, fixed) + HumidityAlerts(latest.humidity, fixed) +
                PhAlerts(latest.ph, fixed) + EcAlerts(latest.ec, fixed)
  {
    var fired := TemperatureAlerts(latest.airTemp, fixed) + HumidityAlerts(latest.humidity, fixed) +
                 PhAlerts(latest.ph, fixed) + EcAlerts(latest.ec, fixed);
    assert forall a :: a in fired ==> a.kind != Success;
    if fired == [] then [AllClear] else fired
  }

  /** The panel's alert list. */
  class Panel {
    var alerts: seq<Alert>

    constructor ()
      ensures alerts == []
    {
      alerts := [];
    }

    /** `fetchLatestReadings`: `newestFirst` is the query's answer, newest reading first (`None` on
        an error). Only the newest reading is checked; no readings leave the list unchanged. */
    method FetchLatestReadings(newestFirst: Option<seq<Reading>>, fixed: Fixed)
      modifies this`alerts
      ensures newestFirst.None? || newestFirst.value == [] ==> alerts == old(alerts)
      ensures newestFirst.Some? && newestFirst.value != [] ==> alerts == AlertsFor(newestFirst.value[0], fixed)
    {
      if newestFirst.Some? && |newestFirst.value| > 0 {
        alerts := AlertsFor(newestFirst.value[0], fixed);
      }
    }
  }
}
