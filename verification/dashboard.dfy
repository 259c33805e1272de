/** The dashboard: gear letter, speed and speed-mode icon. */
module Dashboard {
  import opened Optional
  import opened Schema

  /** Gear code to letter: 1 is drive, 3 is reverse, everything else
      (2 included) shows as neutral. */
  function GearToString(code: int): (r: string)
    ensures r == "D" || r == "N" || r == "R"
    ensures r == "D" <==> code == 1
    ensures r == "R" <==> code == 3
    ensures r == "N" <==> code != 1 && code != 3
  {
    match code
    case 1 => "D"
    case 2 => "N"
    case 3 => "R"
    case _ => "N"
  }

  /** What the dashboard shows. */
  datatype DashView = DashView(gear: string, speed: real, rabbitIcon: bool)

  /** Missing telemetry reads as gear code 2, speed 0 and mode `T`. */
  function View(tel: Option<Telemetry>): (v: DashView)
    ensures tel.Some? ==> v == DashView(GearToString(tel.value.drive.gear), tel.value.drive.speed,
                                         tel.value.drive.spdMode == "R")
  {
    var gear := if tel.Some? then tel.value.drive.gear else 2;
    var speed := if tel.Some? then tel.value.drive.speed else 0.0;
    var mode := if tel.Some? then tel.value.drive.spdMode else "T";
    DashView(GearToString(gear), speed, mode == "R")
  }

  /** The three known codes and the default. */
  lemma GearCodes()
    ensures GearToString(1) == "D" && GearToString(2) == "N" && GearToString(3) == "R"
    ensures GearToString(0) == "N" && GearToString(4) == "N" && GearToString(-1) == "N"
  {
  }

  /** Without telemetry the dashboard shows neutral, 0 km/h and no rabbit. */
  lemma NoTelemetryView()
    ensures View(None) == DashView("N", 0.0, false)
  {
  }

  /** The rabbit icon shows exactly when telemetry reports mode `R`. */
  lemma RabbitIconIff(tel: Option<Telemetry>)
    ensures View(tel).rabbitIcon <==> tel.Some? && tel.value.drive.spdMode == "R"
  {
  }
}
