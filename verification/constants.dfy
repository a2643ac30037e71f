/** Seed data (the meat catalog, the default ratios, the blank cat form) and
    the life-stage classifier that gates the supplement rules. */
module Constants {
  import opened Util
  import opened Types

  /** The built-in catalog: four red meats followed by seven white meats. */
  const DefaultMeats: seq<MeatType> := [
    MeatType("m1", "牛肉", Red, true),
    MeatType("m2", "猪肉", Red, true),
    MeatType("m3", "羊肉", Red, true),
    MeatType("m4", "兔肉(红)", Red, true),
    MeatType("m5", "鸡肉", White, true),
    MeatType("m6", "鸭肉", White, true),
    MeatType("m7", "鹅肉", White, true),
    MeatType("m8", "兔肉(白)", White, true),
    MeatType("m9", "鹌鹑", White, true),
    MeatType("m10", "鸵鸟肉", White, true),
    MeatType("m11", "火鸡肉", White, true)
  ]

  const DefaultDietRatios: DietRatios := DietRatios(3.0, 40.0, 40.0, 5.0, 5.0, 10.0)

  /** The blank profile the add-cat form starts from. Its birth date is the
      date on which the application was loaded. */
  function InitialCat(loadDate: Date): (c: Cat)
    ensures c.id == "" && c.name == "" && c.birthDate == loadDate
    ensures c.weight == 4000.0 && c.dietRatios == DefaultDietRatios
  {
    Cat("", "", loadDate, Male, true, 4000.0, "中华田园猫", None, DefaultDietRatios)
  }

  lemma DefaultMeatsShape()
    ensures |DefaultMeats| == 11
    ensures forall i :: 0 <= i < 4 ==> DefaultMeats[i].category == Red
    ensures forall i :: 4 <= i < 11 ==> DefaultMeats[i].category == White
    ensures forall i :: 0 <= i < 11 ==> DefaultMeats[i].isSystem
    ensures forall i, j :: 0 <= i < j < 11 ==> DefaultMeats[i].id != DefaultMeats[j].id
  {
  }

  lemma DefaultDietRatiosShape()
    ensures DefaultDietRatios.TotalPercentage() == 100.0
    ensures DefaultDietRatios.dailyIntakePercent == 3.0
  {
  }

  datatype LifeStage = Kitten | Adult

  /** Whole months from `birth` to `today`: the calendar month difference,
      less one while today's day of the month is still before the birth day. */
  function CompletedMonths(birth: Date, today: Date): (m: int)
    ensures ValidMonth(birth) && ValidMonth(today) ==> (m >= 0 <==> OnOrAfter(today, birth))
  {
    var a := today.year * 12 + today.month;
    var b := birth.year * 12 + birth.month;
    assert ValidMonth(birth) && ValidMonth(today) ==>
      (a > b <==> today.year > birth.year || (today.year == birth.year && today.month > birth.month));
    (today.year - birth.year) * 12 + (today.month - birth.month)
      - (if today.day < birth.day then 1 else 0)
  }

  /** Adult from twelve completed months on, that is from the first
      birthday on. */
  function GetLifeStage(birth: Date, today: Date): (stage: LifeStage)
    ensures ValidMonth(birth) && ValidMonth(today) ==>
      (stage == Adult <==> OnOrAfter(today, FirstBirthday(birth)))
  {
    var a := today.year * 12 + today.month;
    var b := (birth.year + 1) * 12 + birth.month;
    assert CompletedMonths(birth, today) == a - b + 12 - (if today.day < birth.day then 1 else 0);
    assert ValidMonth(birth) && ValidMonth(today) ==>
      (a > b <==> today.year > birth.year + 1 || (today.year == birth.year + 1 && today.month > birth.month));
    assert ValidMonth(birth) && ValidMonth(today) ==>
      (a == b <==> today.year == birth.year + 1 && today.month == birth.month);
    if CompletedMonths(birth, today) < 12 then Kitten else Adult
  }

  /** The display label: 成猫 for an adult, 幼猫 for a kitten. */
  function GetAgeLabel(birth: Date, today: Date): (text: string)
    ensures text == "成猫" <==> GetLifeStage(birth, today) == Adult
    ensures text == "成猫" || text == "幼猫"
  {
    if GetLifeStage(birth, today) == Adult then "成猫" else "幼猫"
  }

  predicate ValidMonth(d: Date) {
    1 <= d.month <= 12
  }

  /** Calendar order on dates: `a` is `b` or a later date. */
  predicate OnOrAfter(a: Date, b: Date) {
    a.year > b.year
    || (a.year == b.year && (a.month > b.month || (a.month == b.month && a.day >= b.day)))
  }

  /** The first birthday: the same month and day one year later. */
  function FirstBirthday(birth: Date): Date {
    Date(birth.year + 1, birth.month, birth.day)
  }

  /** An earlier birth date never makes a cat younger: if a birth date gives
      an adult, every earlier birth date gives an adult on the same day. */
  lemma EarlierBirthStaysAdult(b1: Date, b2: Date, today: Date)
    requires ValidMonth(b1) && ValidMonth(b2) && ValidMonth(today)
    requires OnOrAfter(b2, b1)
    requires GetLifeStage(b2, today) == Adult
    ensures GetLifeStage(b1, today) == Adult
  {
  }

  lemma LifeStageExamples()
    ensures GetLifeStage(Date(2023, 1, 1), Date(2024, 1, 1)) == Adult
    ensures GetLifeStage(Date(2023, 6, 15), Date(2024, 6, 15)) == Adult
    ensures GetLifeStage(Date(2023, 6, 16), Date(2024, 6, 15)) == Kitten
    ensures GetAgeLabel(Date(2023, 6, 16), Date(2024, 6, 15)) == "幼猫"
  {
  }
}
