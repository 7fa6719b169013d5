/**
 The unit arithmetic of static/script.js that turns a route length into the
 figures shown to the user: travel time, speed in km/h and fuel use.
 Values are exact reals; `toFixed` rounding is not modelled.
 */
module Travel {
  import opened Wrappers

  /** `velocidades.auto`, in metres per minute (30 km/h). */
  const AutoSpeed: real := 500.0
  /** `velocidades.bici`, in metres per minute (15 km/h). */
  const BikeSpeed: real := 250.0
  /** `velocidades.peaton`, in metres per minute (about 4 km/h). */
  const WalkSpeed: real := 67.0
  /** `consumoCombustibleLtsKm`: litres of fuel per kilometre. */
  const FuelPerKm: real := 0.1

  /**
   `velocidades[modoTransporte] || velocidades.auto`: the speed table's
   entry for the mode, falling back to the car's speed for a missing mode or
   one the table does not list.
   */
  function SpeedFor(mode: Option<string>): (v: real)
    ensures v > 0.0
    ensures v in {AutoSpeed, BikeSpeed, WalkSpeed}
    ensures v == BikeSpeed <==> mode == Some("bici")
    ensures v == WalkSpeed <==> mode == Some("peaton")
  {
    match mode
    case Some("bici") => BikeSpeed
    case Some("peaton") => WalkSpeed
    case _ => AutoSpeed
  }

  /** `velocidadActual * 60 / 1000`: metres per minute to kilometres per hour. */
  function KmPerHour(metresPerMinute: real): (kmh: real)
    ensures kmh * 1000.0 == metresPerMinute * 60.0
  {
    metresPerMinute * 60.0 / 1000.0
  }

  /** Kilometres per hour back to metres per minute. */
  function MetresPerMinute(kmh: real): (metresPerMinute: real)
    ensures metresPerMinute * 60.0 == kmh * 1000.0
  {
    kmh * 1000.0 / 60.0
  }

  /** The two speed conversions undo each other. */
  lemma SpeedConversionsInverse(metresPerMinute: real)
    ensures MetresPerMinute(KmPerHour(metresPerMinute)) == metresPerMinute
    ensures KmPerHour(MetresPerMinute(metresPerMinute)) == metresPerMinute
  {
  }

  /**
   The km/h figures before `toFixed(1)`: 30 by car (also when no mode is
   set), 15 by bicycle and 4.02 on foot, which rounds to the "4.0" shown.
   */
  lemma ShownSpeeds()
    ensures KmPerHour(SpeedFor(Some("auto"))) == 30.0
    ensures KmPerHour(SpeedFor(Some("bici"))) == 15.0
    ensures KmPerHour(SpeedFor(Some("peaton"))) == 4.02
    ensures 3.95 <= KmPerHour(SpeedFor(Some("peaton"))) < 4.05
    ensures KmPerHour(SpeedFor(None)) == 30.0
  {
  }

  /**
   The speed table agrees with the km/h figures its comments give: 30 km/h
   is exactly the car's 500 m/min, 15 km/h exactly the bicycle's 250 m/min,
   and 4 km/h is within one metre per minute of the walker's 67.
   */
  lemma CommentedSpeeds()
    ensures MetresPerMinute(30.0) == AutoSpeed
    ensures MetresPerMinute(15.0) == BikeSpeed
    ensures WalkSpeed - 1.0 < MetresPerMinute(4.0) < WalkSpeed
  {
  }

  /** `distancia_metros / velocidadActual`: the estimated travel time in minutes. */
  function Minutes(metres: real, metresPerMinute: real): (minutes: real)
    requires metresPerMinute > 0.0
    ensures minutes * metresPerMinute == metres
  {
    metres / metresPerMinute
  }

  /** A longer route never takes less time at the same speed. */
  lemma MinutesMonotone(m1: real, m2: real, metresPerMinute: real)
    requires metresPerMinute > 0.0 && m1 <= m2
    ensures Minutes(m1, metresPerMinute) <= Minutes(m2, metresPerMinute)
  {
    var a, b := Minutes(m1, metresPerMinute), Minutes(m2, metresPerMinute);
    if a > b {
      assert a * metresPerMinute > b * metresPerMinute;
    }
  }

  /** `(distancia_metros / 1000) * consumoCombustibleLtsKm`: litres used, i.e. 10 km per litre. */
  function FuelLitres(metres: real): (litres: real)
    ensures litres * 10000.0 == metres
  {
    (metres / 1000.0) * FuelPerKm
  }
}
