/**
 * The absence count ("qaib sayı") of offscreen.js:107-118: how many whole
 * absences an absence percentage amounts to, where one absence costs 3.33
 * percentage points in a course of four or more credits and 4.44 points in a
 * course of three or fewer.
 */
module AbsenceMetric {
  import opened Wrappers
  import opened NumberText

  /** A whole number of absences, or the sentinel '-'. */
  datatype AbsenceCount = Absences(n: int) | NoCount

  /** The percentage points one absence costs; no rate for credits strictly between 3 and 4. */
  function PointsPerAbsence(credits: real): (rate: Option<real>)
    ensures rate.Some? ==> rate.value > 0.0
  {
    if credits >= 4.0 then Some(3.33) else if credits <= 3.0 then Some(4.44) else None
  }

  /** `Math.floor(percent / rate)` for the rate that the credits select. */
  function CountFor(percent: real, credits: real): (r: AbsenceCount)
    ensures r.Absences? <==> PointsPerAbsence(credits).Some?
    ensures r.Absences? ==>
      var rate := PointsPerAbsence(credits).value;
      r.n as real * rate <= percent < (r.n as real + 1.0) * rate
  {
    if credits >= 4.0 then Absences((percent / 3.33).Floor)
    else if credits <= 3.0 then Absences((percent / 4.44).Floor)
    else NoCount
  }

  /** The whole computation on the two texts: '-' unless both parse as numbers and the credits select a rate. */
  function AbsenceCountOf(percentText: string, creditsText: string): (r: AbsenceCount)
    ensures r.Absences? <==>
      ParseFloat(percentText).Some? && ParseFloat(creditsText).Some? && PointsPerAbsence(ParseFloat(creditsText).value).Some?
    ensures r.Absences? ==> r == CountFor(ParseFloat(percentText).value, ParseFloat(creditsText).value)
  {
    var percent := ParseFloat(percentText);
    var credits := ParseFloat(creditsText);
    if percent.Some? && credits.Some? then CountFor(percent.value, credits.value) else NoCount
  }

  /** The count is the number of whole absences: no other integer lies in the same band. */
  lemma CountIsUnique(percent: real, credits: real, m: int)
    requires PointsPerAbsence(credits).Some?
    requires var rate := PointsPerAbsence(credits).value; m as real * rate <= percent < (m as real + 1.0) * rate
    ensures CountFor(percent, credits) == Absences(m)
  {
  }

  /** A higher percentage never gives fewer absences. */
  lemma CountMonotone(p1: real, p2: real, credits: real)
    requires p1 <= p2 && PointsPerAbsence(credits).Some?
    ensures CountFor(p1, credits).n <= CountFor(p2, credits).n
  {
  }

  /** For the same non-negative percentage, a heavier course counts at least as many absences as a lighter one. */
  lemma HeavierCourseCountsMore(percent: real, heavy: real, light: real)
    requires percent >= 0.0 && heavy >= 4.0 && light <= 3.0
    ensures CountFor(percent, heavy).n >= CountFor(percent, light).n >= 0
  {
  }

  /**
   * A percentage of 13.32 is exactly four absences in a four-credit course
   * and exactly three in a three-credit one: the floor does not round a
   * whole quotient down.
   */
  lemma ExactMultiples()
    ensures AbsenceCountOf("13.32", "4") == Absences(4)
    ensures AbsenceCountOf("13.32", "3") == Absences(3)
  {
    ParseExample();
    ParseFloatOfDigits("4");
    ParseFloatOfDigits("3");
    assert DigitsValue("4") == 4 && DigitsValue("3") == 3;
    assert CountFor(13.32, 4.0) == Absences(4);
    assert CountFor(13.32, 3.0) == Absences(3);
  }

  lemma ParseExample()
    ensures ParseFloat("13.32") == Some(13.32)
  {
    ParseFloatOfDecimal("13", "32");
    assert "13" + "." + "32" == "13.32";
    assert DigitsValue("13") == 13 by { assert "13"[..1] == "1"; }
    assert FractionValue("32") == 0.32 by { assert "32"[1..] == "2"; }
  }


}
