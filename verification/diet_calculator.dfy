/** The per-cat ratio screen: rounded daily and per-meal grams, grams per
    food category, the percentage total and its warning, editing one ratio,
    and the fixed seven-rule supplement table keyed by life stage. */
module DietCalculator {
  import opened Util
  import opened Types
  import opened Constants

  /** Grams per day shown on the ratio screen: the daily food rounded to a
      whole gram. */
  function DailyTotal(cat: Cat): (t: int)
    ensures t as real - 0.5 <= cat.DailyFood() < t as real + 0.5
    ensures cat.DailyFood() >= 0.0 ==> t >= 0
  {
    Round(cat.DailyFood())
  }

  /** Grams per meal, three meals a day, from the rounded daily total. */
  function PerMeal(dailyTotal: int): (g: int)
    ensures g as real - 0.5 <= dailyTotal as real / 3.0 < g as real + 0.5
    ensures dailyTotal % 3 == 0 ==> 3 * g == dailyTotal
    ensures dailyTotal >= 0 ==> g >= 0
  {
    Round(dailyTotal as real / 3.0)
  }

  /** Grams per day of a category with percentage `percent`. */
  function GetGrams(dailyTotal: int, percent: real): (g: int)
    ensures percent == 0.0 ==> g == 0
    ensures percent == 100.0 ==> g == dailyTotal
    ensures g as real - 0.5 <= dailyTotal as real * percent / 100.0 < g as real + 0.5
  {
    Round(dailyTotal as real * (percent / 100.0))
  }

  /** The warning banner shows exactly when the five percentages do not add
      up to 100; the values themselves are never clamped. */
  function ShowsRatioWarning(r: DietRatios): (warn: bool)
    ensures warn <==> r.Percent(Red) + r.Percent(White) + r.Percent(Heart) + r.Percent(Organ) + r.Percent(Bone) != 100.0
    ensures !warn && (forall c :: r.Percent(c) >= 0.0) ==> forall c :: r.Percent(c) <= 100.0
    ensures !warn ==> r.Percent(Red) + r.Percent(White) + r.Percent(Heart) + r.Percent(Organ) + r.Percent(Bone) == 100.0
  {
    r.TotalPercentage() != 100.0
  }

  /** The fields the ratio editor can change. */
  datatype RatioField = IntakeField | RedField | WhiteField | HeartField | OrganField | BoneField

  function RatioValue(r: DietRatios, f: RatioField): real {
    match f
    case IntakeField => r.dailyIntakePercent
    case RedField => r.redMeatPercent
    case WhiteField => r.whiteMeatPercent
    case HeartField => r.heartPercent
    case OrganField => r.organPercent
    case BoneField => r.bonePercent
  }

  /** The cat handed to `updateCat` after one ratio input changes: that one
      field takes the entered value, unclamped, and nothing else changes. */
  function HandleRatioChange(cat: Cat, field: RatioField, value: real): (r: Cat)
    ensures RatioValue(r.dietRatios, field) == value
    ensures forall f :: f != field ==> RatioValue(r.dietRatios, f) == RatioValue(cat.dietRatios, f)
    ensures r.(dietRatios := cat.dietRatios) == cat
  {
    var d := cat.dietRatios;
    cat.(dietRatios :=
      match field
      case IntakeField => d.(dailyIntakePercent := value)
      case RedField => d.(redMeatPercent := value)
      case WhiteField => d.(whiteMeatPercent := value)
      case HeartField => d.(heartPercent := value)
      case OrganField => d.(organPercent := value)
      case BoneField => d.(bonePercent := value))
  }

  /** Daily grams of muscle meat (red plus white), from a daily total. */
  function MuscleMass(dailyTotal: real, r: DietRatios): (g: real)
    ensures g == dailyTotal * r.Percent(Red) / 100.0 + dailyTotal * r.Percent(White) / 100.0
    ensures dailyTotal >= 0.0 && r.Percent(Red) >= 0.0 && r.Percent(White) >= 0.0 ==> g >= 0.0
  {
    dailyTotal * ((r.redMeatPercent + r.whiteMeatPercent) / 100.0)
  }

  datatype Supplement = Eggshell | VitaminB | VitaminE | Iodine | Manganese | Taurine | FishOil

  /** 'g', '片' (tablet) and '颗' (capsule). */
  datatype DoseUnit = Grams | Tablets | Capsules

  datatype SupplementDose = SupplementDose(supplement: Supplement, daily: real, unit: DoseUnit)

  /** The seven fixed supplement rules, in display order, for a daily muscle
      meat mass and a life stage. */
  function SupplementTable(muscle: real, stage: LifeStage): (t: seq<SupplementDose>)
    ensures |t| == 7
    ensures t[0] == SupplementDose(Eggshell, muscle / 100.0 * 0.6, Grams)
    ensures t[1] == SupplementDose(VitaminB, 0.5, Tablets)
    ensures t[2] == SupplementDose(VitaminE, 1.0 / 7.0, Tablets)
    ensures t[5] == SupplementDose(Taurine, muscle / 1000.0 * 0.5, Grams)
    ensures t[6] == SupplementDose(FishOil, 2.0 / 7.0, Capsules)
    ensures t[3].supplement == Iodine && t[3].unit == Tablets
    ensures t[4].supplement == Manganese && t[4].unit == Tablets
    ensures muscle >= 0.0 ==> forall i :: 0 <= i < |t| ==> t[i].daily >= 0.0
  {
    var isAdult := stage == Adult;
    [ SupplementDose(Eggshell, muscle / 100.0 * 0.6, Grams),
      SupplementDose(VitaminB, 0.5, Tablets),
      SupplementDose(VitaminE, 1.0 / 7.0, Tablets),
      SupplementDose(Iodine, if isAdult then muscle / 700.0 else muscle / 700.0 * 2.0, Tablets),
      SupplementDose(Manganese, if isAdult then muscle / 9000.0 else muscle / 6000.0, Tablets),
      SupplementDose(Taurine, muscle / 1000.0 * 0.5, Grams),
      SupplementDose(FishOil, 2.0 / 7.0, Capsules) ]
  }

  /** A kitten gets twice the adult iodine dose and at least the adult
      manganese dose; every other rule ignores the life stage. */
  lemma KittenDoses(muscle: real)
    requires muscle >= 0.0
    ensures SupplementTable(muscle, Kitten)[3].daily == 2.0 * SupplementTable(muscle, Adult)[3].daily
    ensures SupplementTable(muscle, Kitten)[4].daily >= SupplementTable(muscle, Adult)[4].daily
    ensures SupplementTable(muscle, Adult)[3].daily == muscle / 700.0
    ensures SupplementTable(muscle, Adult)[4].daily == muscle / 9000.0
    ensures SupplementTable(muscle, Kitten)[4].daily == muscle / 6000.0
    ensures forall i :: 0 <= i < 7 && i != 3 && i != 4 ==>
      SupplementTable(muscle, Kitten)[i] == SupplementTable(muscle, Adult)[i]
  {
  }

  /** The supplement table of the ratio screen: muscle mass from the rounded
      daily total, life stage as of `today`. */
  function DietSupplements(cat: Cat, today: Date): (t: seq<SupplementDose>)
    ensures |t| == 7
    ensures t == SupplementTable(MuscleMass(DailyTotal(cat) as real, cat.dietRatios), GetLifeStage(cat.birthDate, today))
    ensures var muscle := MuscleMass(DailyTotal(cat) as real, cat.dietRatios);
      ValidMonth(cat.birthDate) && ValidMonth(today) && muscle > 0.0 ==>
        (t[3].daily == muscle / 700.0 <==> OnOrAfter(today, FirstBirthday(cat.birthDate)))
  {
    SupplementTable(MuscleMass(DailyTotal(cat) as real, cat.dietRatios), GetLifeStage(cat.birthDate, today))
  }

  /** The displayed daily dose: '< 0.01', or the dose to two decimals. */
  datatype DoseText = BelowHundredth | Hundredths(value: real)

  function DoseDisplay(daily: real): (d: DoseText)
    ensures d.BelowHundredth? <==> daily < 0.01
    ensures d.Hundredths? ==> d.value >= 0.01 && d.value - 0.005 <= daily < d.value + 0.005
    ensures d.Hundredths? ==> (100.0 * d.value).Floor as real == 100.0 * d.value
  {
    if daily < 0.01 then BelowHundredth
    else
      var n := Round(100.0 * daily);
      assert n >= 1;
      Hundredths(HundredthsOf(n))
  }

  /** `n` hundredths, a value on the two-decimal grid. */
  function HundredthsOf(n: int): (v: real)
    ensures 100.0 * v == n as real
    ensures (100.0 * v).Floor as real == 100.0 * v
  {
    n as real / 100.0
  }

  /** The worked example: a 4000 g cat fed 3% eats 120 g a day in meals of
      40 g; with the default ratios nothing is flagged. */
  lemma RatioExample(cat: Cat)
    requires cat.weight == 4000.0 && cat.dietRatios == DefaultDietRatios
    ensures DailyTotal(cat) == 120 && PerMeal(DailyTotal(cat)) == 40
    ensures GetGrams(120, 40.0) == 48 && GetGrams(120, 10.0) == 12
    ensures !ShowsRatioWarning(cat.dietRatios)
    ensures MuscleMass(120.0, cat.dietRatios) == 96.0
  {
    assert cat.DailyFood() == 120.0;
  }

  /** The rounded daily total never decreases when the weight grows. */
  lemma DailyTotalMonotone(c1: Cat, c2: Cat)
    requires 0.0 <= c1.weight <= c2.weight
    requires c1.dietRatios.dailyIntakePercent == c2.dietRatios.dailyIntakePercent >= 0.0
    ensures DailyTotal(c1) <= DailyTotal(c2)
  {
    var p := c1.dietRatios.dailyIntakePercent / 100.0;
    assert c1.weight * p <= c2.weight * p;
    assert c1.DailyFood() <= c2.DailyFood();
    assert DailyTotal(c1) as real < DailyTotal(c2) as real + 1.0;
  }

  /** The rounded daily total never decreases when the intake percentage
      grows either, for a cat whose weight is not negative. */
  lemma DailyTotalMonotoneInIntake(c1: Cat, c2: Cat)
    requires c1.weight == c2.weight >= 0.0
    requires c1.dietRatios.dailyIntakePercent <= c2.dietRatios.dailyIntakePercent
    ensures DailyTotal(c1) <= DailyTotal(c2)
  {
    var w := c1.weight;
    var p1 := c1.dietRatios.dailyIntakePercent / 100.0;
    var p2 := c2.dietRatios.dailyIntakePercent / 100.0;
    MulNonNegative(w, p2 - p1);
    assert w * p2 - w * p1 == w * (p2 - p1);
    assert c1.DailyFood() <= c2.DailyFood();
    assert DailyTotal(c1) as real < DailyTotal(c2) as real + 1.0;
  }

  /** When the five percentages add up to 100, the five rounded category
      amounts add up to the daily total give or take 2 g of rounding. */
  lemma GramsSumNearDailyTotal(dailyTotal: int, r: DietRatios)
    requires r.TotalPercentage() == 100.0
    ensures var s := GetGrams(dailyTotal, r.redMeatPercent) + GetGrams(dailyTotal, r.whiteMeatPercent)
                   + GetGrams(dailyTotal, r.heartPercent) + GetGrams(dailyTotal, r.organPercent)
                   + GetGrams(dailyTotal, r.bonePercent);
            dailyTotal - 2 <= s <= dailyTotal + 2
  {
    var t := dailyTotal as real;
    var exact := t * r.redMeatPercent / 100.0 + t * r.whiteMeatPercent / 100.0
               + t * r.heartPercent / 100.0 + t * r.organPercent / 100.0
               + t * r.bonePercent / 100.0;
    assert exact == t * r.TotalPercentage() / 100.0;
  }
}
