// Ephemeris time (astro/Time.h, astro/Time.cpp): seconds past J2000 on
// the TDB scale, with Julian-date conversion and the UTC formatters.
module Time {

  /** Julian date of the J2000 epoch (j2000_c). */
  const J2000JulianDate: real := 2451545.0
  /** Seconds per day (spd_c). */
  const SecondsPerDay: real := 86400.0

  /** A time difference in seconds. */
  datatype TimeDelta = TimeDelta(value: real)

  /** fromJED: ephemeris time of a Julian ephemeris date. */
  function JedToEt(jed: real): real
  {
    (jed - J2000JulianDate) * SecondsPerDay
  }

  /** toJED: Julian ephemeris date of an ephemeris time. */
  function EtToJed(et: real): real
  {
    et / SecondsPerDay + J2000JulianDate
  }

  lemma JedRoundTrip(jed: real)
    ensures EtToJed(JedToEt(jed)) == jed
  {
  }

  lemma EtRoundTrip(et: real)
    ensures JedToEt(EtToJed(et)) == et
  {
  }

  /** ET zero is the J2000 epoch, and later times have later Julian dates. */
  lemma EtToJedIncreasing(e1: real, e2: real)
    ensures EtToJed(0.0) == 2451545.0
    ensures e1 < e2 ==> EtToJed(e1) < EtToJed(e2)
  {
  }

  /** Precision as the formatters sanitise it: clamped into [0, 20]. */
  function ClampPrecision(prec: int): (p: int)
    ensures 0 <= p <= 20
    ensures 0 <= prec <= 20 ==> p == prec
    ensures prec < 0 ==> p == 0
    ensures prec > 20 ==> p == 20
  {
    if prec < 0 then 0 else if prec > 20 then 20 else prec
  }

  /** SPICE et2utc_c: (et, format, precision, output length) to text. */
  type Et2Utc = (real, string, int, int) -> string

  class EphemerisTime {
    var et: real

    /** ET = 0, the J2000 epoch. */
    constructor Default()
      ensures et == 0.0
    {
      et := 0.0;
    }

    constructor (value: real)
      ensures et == value
    {
      et := value;
    }

    static method FromJED(jed: real) returns (e: EphemerisTime)
      ensures fresh(e) && e.et == JedToEt(jed)
      ensures e.ToJED() == jed
    {
      e := new EphemerisTime(JedToEt(jed));
      JedRoundTrip(jed);
    }

    /** getETValue(): the ET, the time whose Julian date ToJED gives. */
    function GetETValue(): (v: real)
      reads this
      ensures v == et && EtToJed(v) == ToJED()
    {
      et
    }

    /** The Julian ephemeris date; converting it back gives this ET. */
    function ToJED(): (jed: real)
      reads this
      ensures JedToEt(jed) == et
    {
      EtRoundTrip(et);
      EtToJed(et)
    }

    /** operator==: the same ET, so neither time is before the other. */
    predicate Equals(other: EphemerisTime): (r: bool)
      reads this, other
      ensures r <==> !Less(other) && !Greater(other)
      ensures r <==> GetETValue() == other.GetETValue()
    {
      et == other.et
    }

    predicate Less(other: EphemerisTime)
      reads this, other
    {
      et < other.et
    }

    predicate Greater(other: EphemerisTime)
      reads this, other
    {
      et > other.et
    }

    /** operator+= */
    method AddAssign(dt: TimeDelta)
      modifies this
      ensures et == old(et) + dt.value
    {
      et := et + dt.value;
    }

    /** operator-= */
    method SubtractAssign(dt: TimeDelta)
      modifies this
      ensures et == old(et) - dt.value
    {
      et := et - dt.value;
    }

    /** et + dt: a new time, this one unchanged. */
    method Plus(dt: TimeDelta) returns (e: EphemerisTime)
      ensures fresh(e) && e.et == et + dt.value
    {
      e := new EphemerisTime(et + dt.value);
    }

    /** et1 - et0: the time difference. */
    function Minus(other: EphemerisTime): (d: TimeDelta)
      reads this, other
      ensures other.et + d.value == et
    {
      TimeDelta(et - other.et)
    }

    /** toISOUTCString: UTC in ISO calendar format, precision clamped into [0, 20]. */
    method ToISOUTCString(prec: int, et2utc: Et2Utc) returns (str: string)
      ensures str == et2utc(et, "ISOC", ClampPrecision(prec), 24 + ClampPrecision(prec))
    {
      var p := prec;
      if p < 0 { p := 0; }
      if p > 20 { p := 20; }
      str := et2utc(et, "ISOC", p, 24 + p);
    }

    /** toJDUTCString: UTC Julian date, precision clamped into [0, 20]. */
    method ToJDUTCString(prec: int, et2utc: Et2Utc) returns (str: string)
      ensures str == et2utc(et, "J", ClampPrecision(prec), 24 + ClampPrecision(prec))
    {
      var p := prec;
      if p < 0 { p := 0; }
      if p > 20 { p := 20; }
      str := et2utc(et, "J", p, 24 + p);
    }
  }

  /** Adding a delta and then subtracting it leaves the time where it was. */
  method AddThenSubtractRestores(e: EphemerisTime, dt: TimeDelta)
    modifies e
    ensures e.et == old(e.et)
  {
    e.AddAssign(dt);
    e.SubtractAssign(dt);
  }

  /** et0 + dt equals the time at et0's value plus dt, and the difference recovers dt. */
  method PlusMinusAgree(e0: EphemerisTime, dt: TimeDelta) returns (e1: EphemerisTime)
    ensures fresh(e1) && e1.et == e0.et + dt.value
    ensures e1.Minus(e0) == dt
  {
    e1 := e0.Plus(dt);
  }
}
