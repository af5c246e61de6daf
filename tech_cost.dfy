/**
 * The integer part of the research-cost rules: how many steps a development
 * of a given tier is worth, the step total of a research order, and the
 * rendering of a day count as in-game months (30 days) and days.
 */
module TechCost {

  import opened Wrappers
  import opened Strings

  /** Steps for tier 0, 1, 2 and 3. */
  const StepsPerTier: seq<nat> := [2, 3, 4, 5]

  /** In-game month length in days. */
  const DaysPerMonth: nat := 30

  datatype DevWithTier = DevWithTier(id: string, tier: int)

  /** `getStepsForTier`: the tier clamped into 0..3 indexes `StepsPerTier`. */
  function StepsForTier(tier: int): (steps: nat)
    ensures 2 <= steps <= 5
    ensures 0 <= tier <= 3 ==> steps == tier + 2
    ensures tier < 0 ==> steps == 2
    ensures tier > 3 ==> steps == 5
  {
    var idx := if tier < 0 then 0 else if tier > 3 then 3 else tier;
    StepsPerTier[idx]
  }

  /** The steps the ids contribute: a known id adds its tier's steps, an unknown one nothing. */
  function StepsOf(ids: seq<string>, idToDev: map<string, DevWithTier>): nat {
    if ids == [] then 0
    else
      var last := ids[|ids| - 1];
      StepsOf(ids[..|ids| - 1], idToDev) + if last in idToDev then StepsForTier(idToDev[last].tier) else 0
  }

  /** How many of the ids the map knows. */
  function KnownCount(ids: seq<string>, idToDev: map<string, DevWithTier>): nat {
    if ids == [] then 0
    else KnownCount(ids[..|ids| - 1], idToDev) + if ids[|ids| - 1] in idToDev then 1 else 0
  }

  /** `totalStepsResearched`: the loop accumulating `total`. */
  method TotalStepsResearched(orderedDevIds: seq<string>, idToDev: map<string, DevWithTier>)
    returns (total: nat)
    ensures total == StepsOf(orderedDevIds, idToDev)
  {
    total := 0;
    for i := 0 to |orderedDevIds|
      invariant total == StepsOf(orderedDevIds[..i], idToDev)
    {
      var id := orderedDevIds[i];
      assert orderedDevIds[..i + 1][..i] == orderedDevIds[..i];
      if id in idToDev {
        total := total + StepsForTier(idToDev[id].tier);
      }
    }
    assert orderedDevIds[..|orderedDevIds|] == orderedDevIds;
  }

  /** The step total of a concatenation is the sum of the two totals. */
  lemma {:induction false} StepsOfAppend(a: seq<string>, b: seq<string>, idToDev: map<string, DevWithTier>)
    ensures StepsOf(a + b, idToDev) == StepsOf(a, idToDev) + StepsOf(b, idToDev)
    ensures KnownCount(a + b, idToDev) == KnownCount(a, idToDev) + KnownCount(b, idToDev)
  {
    if b == [] {
      assert a + b == a;
    } else {
      assert (a + b)[..|a + b| - 1] == a + b[..|b| - 1];
      StepsOfAppend(a, b[..|b| - 1], idToDev);
    }
  }

  /** Every known id adds between 2 and 5 steps; ids the map lacks add none. */
  lemma {:induction false} StepsOfBounds(ids: seq<string>, idToDev: map<string, DevWithTier>)
    ensures 2 * KnownCount(ids, idToDev) <= StepsOf(ids, idToDev) <= 5 * KnownCount(ids, idToDev)
  {
    if ids != [] {
      StepsOfBounds(ids[..|ids| - 1], idToDev);
    }
  }

  /** An id the map does not know changes nothing, wherever it stands. */
  lemma UnknownIdIgnored(a: seq<string>, id: string, b: seq<string>, idToDev: map<string, DevWithTier>)
    requires id !in idToDev
    ensures StepsOf(a + [id] + b, idToDev) == StepsOf(a + b, idToDev)
  {
    StepsOfAppend(a + [id], b, idToDev);
    StepsOfAppend(a, [id], idToDev);
    StepsOfAppend(a, b, idToDev);
    assert [id][..0] == [];
  }

  // ---------------------------------------------------------------------
  // Days as months and days
  // ---------------------------------------------------------------------

  /** `Math.floor(totalDays / 30)`. */
  function MonthsOf(totalDays: int): int {
    totalDays / DaysPerMonth
  }

  /** `totalDays % 30` in JavaScript, whose remainder takes the dividend's sign. */
  function DaysOf(totalDays: int): int {
    if totalDays >= 0 then totalDays % DaysPerMonth else -((-totalDays) % DaysPerMonth)
  }

  /** "n day" or "n days", "n month" or "n months": singular exactly at 1. */
  function Quantity(n: int, unit: string): string {
    IntToString(n) + " " + unit + Plural(n)
  }

  function Plural(n: int): string {
    if n == 1 then "" else "s"
  }

  /**
   * `formatDaysAsMonthsAndDays`. The text of a non-negative count loses
   * nothing: it reads back as that count.
   */
  function FormatDaysAsMonthsAndDays(totalDays: int): (s: string)
    ensures totalDays >= 0 ==> ParseMonthsAndDays(s) == Some(totalDays)
  {
    if totalDays >= 0 then
      MonthsAndDaysDecompose(totalDays);
      LongFormRoundTrip(MonthsOf(totalDays), DaysOf(totalDays));
      LongForm(MonthsOf(totalDays), DaysOf(totalDays))
    else LongForm(MonthsOf(totalDays), DaysOf(totalDays))
  }

  /** The long form of a months and days pair: either part is omitted when 0. */
  function LongForm(months: int, days: int): string {
    if months == 0 then Quantity(days, "day")
    else if days == 0 then Quantity(months, "month")
    else Quantity(months, "month") + " " + Quantity(days, "day")
  }

  /**
   * `formatDaysAsMonthsAndDaysShort`. The text of a non-negative count reads
   * back as that count.
   */
  function FormatDaysAsMonthsAndDaysShort(totalDays: int): (s: string)
    ensures totalDays >= 0 ==> ParseMonthsAndDaysShort(s) == Some(totalDays)
  {
    if totalDays >= 0 then
      MonthsAndDaysDecompose(totalDays);
      ShortFormRoundTrip(MonthsOf(totalDays), DaysOf(totalDays));
      ShortForm(MonthsOf(totalDays), DaysOf(totalDays))
    else ShortForm(MonthsOf(totalDays), DaysOf(totalDays))
  }

  /** The short form: "m" after the months, "d" after the days, either omitted when 0. */
  function ShortForm(months: int, days: int): string {
    if months == 0 then IntToString(days) + "d"
    else if days == 0 then IntToString(months) + "m"
    else IntToString(months) + "m " + IntToString(days) + "d"
  }

  /** For a non-negative count, months and days recompose it, with days below 30. */
  lemma MonthsAndDaysDecompose(totalDays: int)
    requires totalDays >= 0
    ensures MonthsOf(totalDays) >= 0 && 0 <= DaysOf(totalDays) < DaysPerMonth
    ensures MonthsOf(totalDays) * DaysPerMonth + DaysOf(totalDays) == totalDays
  {
  }

  /**
   * The three shapes of the long form: days alone below a month, months alone
   * on a whole number of months, and otherwise the months part, a space and
   * the days part.
   */
  lemma FormatCases(d: nat)
    ensures d < DaysPerMonth ==>
              FormatDaysAsMonthsAndDays(d) == NatToString(d) + " " + (if d == 1 then "day" else "days")
    ensures d > 0 && d % DaysPerMonth == 0 ==>
              FormatDaysAsMonthsAndDays(d) == NatToString(d / DaysPerMonth) + " " +
                                              (if d == DaysPerMonth then "month" else "months")
    ensures d >= DaysPerMonth && d % DaysPerMonth != 0 ==>
              FormatDaysAsMonthsAndDays(d) ==
                FormatDaysAsMonthsAndDays(d / DaysPerMonth * DaysPerMonth) + " " +
                FormatDaysAsMonthsAndDays(d % DaysPerMonth)
  {
    MonthsAndDaysDecompose(d);
    var months, days := MonthsOf(d), DaysOf(d);
    assert months == d / DaysPerMonth && days == d % DaysPerMonth;
    if months == 0 {
      QuantityText(days, "day");
    } else if days == 0 {
      QuantityText(months, "month");
    } else {
      var whole := months * DaysPerMonth;
      assert MonthsOf(whole) == months && DaysOf(whole) == 0;
      assert MonthsOf(days) == 0 && DaysOf(days) == days;
    }
  }

  lemma QuantityText(n: nat, unit: string)
    ensures Quantity(n, unit) == NatToString(n) + " " + (if n == 1 then unit else unit + "s")
  {
    if n == 1 {
      assert unit + "" == unit;
    }
  }

  /** The three shapes of the short form. */
  lemma FormatShortCases(d: nat)
    ensures d < DaysPerMonth ==> FormatDaysAsMonthsAndDaysShort(d) == NatToString(d) + "d"
    ensures d > 0 && d % DaysPerMonth == 0 ==>
              FormatDaysAsMonthsAndDaysShort(d) == NatToString(d / DaysPerMonth) + "m"
    ensures d >= DaysPerMonth && d % DaysPerMonth != 0 ==>
              FormatDaysAsMonthsAndDaysShort(d) ==
                NatToString(d / DaysPerMonth) + "m " + NatToString(d % DaysPerMonth) + "d"
  {
  }

  // The readers below invert the two formats; they state that the rendering
  // loses nothing for non-negative day counts.

  /** Reads "n day(s)", "m month(s)" or "m month(s) n day(s)" back into days. */
  function ParseMonthsAndDays(s: string): Option<int> {
    match ReadNat(s)
    case None => None
    case Some((a, rest)) => ParseAfterCount(a, rest)
  }

  /** What follows the leading count `a`: its unit, or months then a day count. */
  function ParseAfterCount(a: nat, rest: string): Option<int> {
    if IsUnit(rest, " day") then Some(a)
    else if IsUnit(rest, " month") then Some(a * DaysPerMonth)
    else
      match MonthsTail(rest)
      case None => None
      case Some(t) => ParseDaysAfter(a, t)
  }

  /** The "n day(s)" after `a` months. */
  function ParseDaysAfter(a: nat, t: string): Option<int> {
    match ReadNat(t)
    case None => None
    case Some((b, rest)) => if IsUnit(rest, " day") then Some(a * DaysPerMonth + b) else None
  }

  /** The unit alone, singular or plural. */
  predicate IsUnit(rest: string, unit: string) {
    rest == unit || rest == unit + "s"
  }

  /** The text after " month " or " months ", if `rest` starts with either. */
  function MonthsTail(rest: string): Option<string> {
    if StartsWith(rest, " month ") then Some(rest[|" month "|..])
    else if StartsWith(rest, " months ") then Some(rest[|" months "|..])
    else None
  }

  /** A count of `n` in front of `rest` is read as `n`, whatever follows. */
  lemma ReadCount(n: nat, rest: string)
    requires rest == [] || !IsDigit(rest[0])
    ensures ParseMonthsAndDays(NatToString(n) + rest) == ParseAfterCount(n, rest)
  {
    ReadNatOfNatToString(n, rest);
  }

  lemma ReadDaysAfter(a: nat, n: nat, rest: string)
    requires rest == [] || !IsDigit(rest[0])
    ensures ParseDaysAfter(a, NatToString(n) + rest) ==
            if IsUnit(rest, " day") then Some(a * DaysPerMonth + n) else None
  {
    ReadNatOfNatToString(n, rest);
  }

  /** A rendered quantity is the digits of `n` followed by its unit. */
  lemma QuantitySplit(n: nat, unit: string)
    ensures Quantity(n, unit) == NatToString(n) + (" " + unit + Plural(n))
  {
  }

  lemma UnitOfPlural(n: int, unit: string)
    ensures IsUnit(unit + Plural(n), unit)
  {
    assert unit + "" == unit;
  }

  lemma NotUnit(n: nat, t: string)
    requires t != []
    ensures !IsUnit(" month" + Plural(n) + " " + t, " month")
    ensures !IsUnit(" month" + Plural(n) + " " + t, " day")
  {
    var r := " month" + Plural(n) + " " + t;
    assert r[1] == 'm';
    if n == 1 {
      assert |r| > |" month"| && r[6] == ' ';
    } else {
      assert |r| > |" months"| && r[7] == ' ';
    }
  }

  lemma MonthsTailOf(n: nat, t: string)
    ensures MonthsTail(" month" + Plural(n) + " " + t) == Some(t)
  {
    var r := " month" + Plural(n) + " " + t;
    if n == 1 {
      assert r == " month " + t;
      assert StartsWith(r, " month ") && r[|" month "|..] == t;
    } else {
      assert r == " months " + t;
      assert r[6] == 's';
      assert StartsWith(r, " months ") && r[|" months "|..] == t;
    }
  }

  lemma LongFormRoundTrip(months: nat, days: nat)
    ensures ParseMonthsAndDays(LongForm(months, days)) == Some(months * DaysPerMonth + days)
  {
    if months == 0 {
      DaysOnlyRoundTrip(days);
    } else if days == 0 {
      MonthsOnlyRoundTrip(months);
    } else {
      MonthsAndDaysRoundTrip(months, days);
    }
  }

  lemma DaysOnlyRoundTrip(days: nat)
    ensures ParseMonthsAndDays(Quantity(days, "day")) == Some(days)
  {
    QuantitySplit(days, "day");
    var rest := " " + "day" + Plural(days);
    assert rest == " day" + Plural(days);
    ReadCount(days, rest);
    UnitOfPlural(days, " day");
  }

  lemma MonthsOnlyRoundTrip(months: nat)
    ensures ParseMonthsAndDays(Quantity(months, "month")) == Some(months * DaysPerMonth)
  {
    QuantitySplit(months, "month");
    var rest := " " + "month" + Plural(months);
    assert rest == " month" + Plural(months);
    ReadCount(months, rest);
    UnitOfPlural(months, " month");
    assert !IsUnit(rest, " day") by { assert rest[1] == 'm'; }
  }

  lemma MonthsAndDaysRoundTrip(months: nat, days: nat)
    ensures ParseMonthsAndDays(Quantity(months, "month") + " " + Quantity(days, "day")) ==
            Some(months * DaysPerMonth + days)
  {
    var t := Quantity(days, "day");
    var rest := " month" + Plural(months) + " " + t;
    QuantitySplit(months, "month");
    assert Quantity(months, "month") + " " + t == NatToString(months) + rest;
    ReadCount(months, rest);
    DaysAfterMonths(months, days);
  }

  lemma DaysAfterMonths(months: nat, days: nat)
    ensures ParseAfterCount(months, " month" + Plural(months) + " " + Quantity(days, "day")) ==
            Some(months * DaysPerMonth + days)
  {
    var t := Quantity(days, "day");
    NotUnit(months, t);
    MonthsTailOf(months, t);
    QuantitySplit(days, "day");
    var rest := " " + "day" + Plural(days);
    assert rest == " day" + Plural(days);
    ReadDaysAfter(months, days, rest);
    UnitOfPlural(days, " day");
  }

  /** Reads "nd", "mm" or "mm nd" back into days. */
  function ParseMonthsAndDaysShort(s: string): Option<int> {
    match ReadNat(s)
    case None => None
    case Some((a, rest)) => ParseShortAfterCount(a, rest)
  }

  /** What follows the leading count `a` in the short form. */
  function ParseShortAfterCount(a: nat, rest: string): Option<int> {
    if rest == "d" then Some(a)
    else if rest == "m" then Some(a * DaysPerMonth)
    else if StartsWith(rest, "m ") then ParseShortDaysAfter(a, rest[2..])
    else None
  }

  /** The "nd" after `a` months. */
  function ParseShortDaysAfter(a: nat, t: string): Option<int> {
    match ReadNat(t)
    case None => None
    case Some((b, rest)) => if rest == "d" then Some(a * DaysPerMonth + b) else None
  }

  lemma ReadShortCount(n: nat, rest: string)
    requires rest == [] || !IsDigit(rest[0])
    ensures ParseMonthsAndDaysShort(NatToString(n) + rest) == ParseShortAfterCount(n, rest)
  {
    ReadNatOfNatToString(n, rest);
  }

  lemma ReadShortDaysAfter(a: nat, n: nat)
    ensures ParseShortDaysAfter(a, NatToString(n) + "d") == Some(a * DaysPerMonth + n)
  {
    ReadNatOfNatToString(n, "d");
  }

  lemma ShortFormRoundTrip(months: nat, days: nat)
    ensures ParseMonthsAndDaysShort(ShortForm(months, days)) == Some(months * DaysPerMonth + days)
  {
    if months == 0 {
      ReadShortCount(days, "d");
    } else if days == 0 {
      ReadShortCount(months, "m");
    } else {
      var t := NatToString(days) + "d";
      var rest := "m " + t;
      assert ShortForm(months, days) == NatToString(months) + rest;
      ReadShortCount(months, rest);
      assert rest != "d" && rest != "m" by { assert |rest| > 2; }
      assert StartsWith(rest, "m ") && rest[2..] == t;
      ReadShortDaysAfter(months, days);
    }
  }

  /** Distinct non-negative day counts are rendered differently, in both forms. */
  lemma FormatInjective(d: nat, e: nat)
    requires FormatDaysAsMonthsAndDays(d) == FormatDaysAsMonthsAndDays(e) ||
             FormatDaysAsMonthsAndDaysShort(d) == FormatDaysAsMonthsAndDaysShort(e)
    ensures d == e
  {
  }
}
