// Birth-date calculators of the page script: the zodiac sign of a month and
// day (getZodiac) and the age in whole years (calculateAge). Dates are integer
// (year, month, day) triples with months numbered 1 to 12; the current date is
// a parameter instead of a clock reading.

module Zodiac {

  datatype Date = Date(year: int, month: int, day: int)

  datatype Sign =
    | Aquarius | Pisces | Aries | Taurus | Gemini | Cancer
    | Leo | Virgo | Libra | Scorpio | Sagittarius | Capricorn
    | UnknownZodiac

  /** The label the page shows for a sign. */
  function Name(s: Sign): string {
    match s
    case Aquarius => "Aquarius"
    case Pisces => "Pisces"
    case Aries => "Aries"
    case Taurus => "Taurus"
    case Gemini => "Gemini"
    case Cancer => "Cancer"
    case Leo => "Leo"
    case Virgo => "Virgo"
    case Libra => "Libra"
    case Scorpio => "Scorpio"
    case Sagittarius => "Sagittarius"
    case Capricorn => "Capricorn"
    case UnknownZodiac => "Unknown Zodiac"
  }

  /** getZodiac: twelve month/day ranges tried in order, then the fallback. */
  function GetZodiac(month: int, day: int): (r: Sign)
    ensures r == UnknownZodiac <==> !(1 <= month <= 12)
  {
    if (month == 1 && day >= 20) || (month == 2 && day <= 18) then Aquarius
    else if (month == 2 && day >= 19) || (month == 3 && day <= 20) then Pisces
    else if (month == 3 && day >= 21) || (month == 4 && day <= 19) then Aries
    else if (month == 4 && day >= 20) || (month == 5 && day <= 20) then Taurus
    else if (month == 5 && day >= 21) || (month == 6 && day <= 20) then Gemini
    else if (month == 6 && day >= 21) || (month == 7 && day <= 22) then Cancer
    else if (month == 7 && day >= 23) || (month == 8 && day <= 22) then Leo
    else if (month == 8 && day >= 23) || (month == 9 && day <= 22) then Virgo
    else if (month == 9 && day >= 23) || (month == 10 && day <= 22) then Libra
    else if (month == 10 && day >= 23) || (month == 11 && day <= 21) then Scorpio
    else if (month == 11 && day >= 22) || (month == 12 && day <= 21) then Sagittarius
    else if (month == 12 && day >= 22) || (month == 1 && day <= 19) then Capricorn
    else UnknownZodiac
  }

  // ---- An independent description: the calendar of sign start dates ----

  /** The sign that follows `s` in the zodiac year. */
  function Next(s: Sign): Sign
    requires s != UnknownZodiac
  {
    match s
    case Aquarius => Pisces
    case Pisces => Aries
    case Aries => Taurus
    case Taurus => Gemini
    case Gemini => Cancer
    case Cancer => Leo
    case Leo => Virgo
    case Virgo => Libra
    case Libra => Scorpio
    case Scorpio => Sagittarius
    case Sagittarius => Capricorn
    case Capricorn => Aquarius
  }

  /** The month in which a sign's range begins. */
  function StartMonth(s: Sign): int
    requires s != UnknownZodiac
  {
    match s
    case Aquarius => 1
    case Pisces => 2
    case Aries => 3
    case Taurus => 4
    case Gemini => 5
    case Cancer => 6
    case Leo => 7
    case Virgo => 8
    case Libra => 9
    case Scorpio => 10
    case Sagittarius => 11
    case Capricorn => 12
  }

  /** The first day of a sign's range, within its start month. */
  function StartDay(s: Sign): int
    requires s != UnknownZodiac
  {
    match s
    case Aquarius => 20
    case Pisces => 19
    case Aries => 21
    case Taurus => 20
    case Gemini => 21
    case Cancer => 21
    case Leo => 23
    case Virgo => 23
    case Libra => 23
    case Scorpio => 23
    case Sagittarius => 22
    case Capricorn => 22
  }

  /**
   * Each sign runs from its own start date up to, and including, the day
   * before the next sign's start date: both ends of every range are inclusive.
   */
  lemma SignRange(s: Sign, month: int, day: int)
    requires s != UnknownZodiac
    ensures GetZodiac(month, day) == s <==>
              (month == StartMonth(s) && day >= StartDay(s)) ||
              (month == StartMonth(Next(s)) && day <= StartDay(Next(s)) - 1)
  {
  }

  /** The sign that begins in a given month (each month starts exactly one). */
  function SignStartingIn(month: int): (s: Sign)
    requires 1 <= month <= 12
    ensures s != UnknownZodiac && StartMonth(s) == month
  {
    [Aquarius, Pisces, Aries, Taurus, Gemini, Cancer,
     Leo, Virgo, Libra, Scorpio, Sagittarius, Capricorn][month - 1]
  }

  /**
   * Within a month the classification changes exactly once, at the start day
   * of the sign that begins in that month, and it changes to the next sign.
   */
  lemma MonthSplitsAtOneCusp(month: int, day: int)
    requires 1 <= month <= 12
    ensures var late := SignStartingIn(month);
            GetZodiac(month, day) == late <==> day >= StartDay(late)
    ensures var late := SignStartingIn(month);
            day < StartDay(late) ==> GetZodiac(month, day) != UnknownZodiac &&
                                     Next(GetZodiac(month, day)) == late
  {
  }

  /** Monotone in the day: once the sign has changed within a month it does not change back. */
  lemma {:induction false} NoReturnWithinMonth(month: int, d1: int, d2: int, d3: int)
    requires d1 <= d2 <= d3
    requires GetZodiac(month, d1) == GetZodiac(month, d3)
    ensures GetZodiac(month, d2) == GetZodiac(month, d1)
  {
    if 1 <= month <= 12 {
      MonthSplitsAtOneCusp(month, d1);
      MonthSplitsAtOneCusp(month, d2);
      MonthSplitsAtOneCusp(month, d3);
    }
  }

  lemma InclusiveBoundaries()
    ensures GetZodiac(1, 20) == Aquarius && GetZodiac(2, 18) == Aquarius
    ensures GetZodiac(1, 19) == Capricorn && GetZodiac(12, 22) == Capricorn
    ensures GetZodiac(2, 19) == Pisces && GetZodiac(2, 29) == Pisces
    ensures GetZodiac(7, 4) == Cancer
  {
  }

  // ---- calculateAge ----

  /** (m1, d1) comes strictly before (m2, d2) in the calendar year. */
  predicate MonthDayBefore(m1: int, d1: int, m2: int, d2: int) {
    m1 < m2 || (m1 == m2 && d1 < d2)
  }

  /** The lexicographic order on (year, month, day). */
  predicate OnOrBefore(a: Date, b: Date) {
    a.year < b.year || (a.year == b.year && !MonthDayBefore(b.month, b.day, a.month, a.day))
  }

  /** calculateAge: year difference, less one while this year's birthday is still ahead. */
  function CalculateAge(birth: Date, today: Date): (age: int)
    ensures age == today.year - birth.year - 1 <==>
              MonthDayBefore(today.month, today.day, birth.month, birth.day)
    ensures age == today.year - birth.year <==>
              !MonthDayBefore(today.month, today.day, birth.month, birth.day)
  {
    var age := today.year - birth.year;
    var m := today.month - birth.month;
    if m < 0 || (m == 0 && today.day < birth.day) then age - 1 else age
  }

  /**
   * The age is the number of birthdays reached: the birthday `age` years on is
   * on or before today, and the one a year later is not.
   */
  lemma AgeCountsBirthdaysReached(birth: Date, today: Date)
    ensures var age := CalculateAge(birth, today);
            OnOrBefore(Date(birth.year + age, birth.month, birth.day), today) &&
            !OnOrBefore(Date(birth.year + age + 1, birth.month, birth.day), today)
  {
  }

  /** A birth date on or before today gives an age of at least zero. */
  lemma AgeNonNegative(birth: Date, today: Date)
    requires OnOrBefore(birth, today)
    ensures CalculateAge(birth, today) >= 0
  {
  }
}
