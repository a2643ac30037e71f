/** The 7-day packaging plan and the 30-day supplement totals. Unlike the
    ratio screen this screen works on the unrounded daily food amount. */
module PackagingPlan {
  import opened Util
  import opened Types
  import opened Constants
  import opened DietCalculator

  const MealsPerDay: int := 3
  const FoodDays: int := 7
  const SupplementDays: int := 30

  /** Bags to prepare for a week: one per meal. */
  const TotalMeals: int := MealsPerDay * FoodDays

  /** Grams per bag: the unrounded daily food split over three meals. */
  function MealSize(cat: Cat): (g: real)
    ensures g * MealsPerDay as real == cat.DailyFood()
  {
    cat.DailyFood() / MealsPerDay as real
  }

  /** The week's food: exactly one bag for each of the 21 meals. */
  function WeeklyTotal(cat: Cat): (g: real)
    ensures g == TotalMeals as real * MealSize(cat)
  {
    cat.DailyFood() * FoodDays as real
  }

  /** One row of the plan: the week's grams of a category and its number of
      meal bags to one decimal. `bags` is `None` where the division by a zero
      meal size yields NaN. */
  datatype BagPlan = BagPlan(grams: int, bags: Option<real>)

  function GetBags(cat: Cat, percentage: real): (b: BagPlan)
    ensures cat.DailyFood() == 0.0 ==> b.bags == None && b.grams == 0
    ensures b.grams as real - 0.5 <= 7.0 * cat.DailyFood() * percentage / 100.0 < b.grams as real + 0.5
  {
    var totalNeeded := WeeklyTotal(cat) * (percentage / 100.0);
    var meal := MealSize(cat);
    BagPlan(Round(totalNeeded), if meal == 0.0 then None else Some(Round1(totalNeeded / meal)))
  }

  /** The bag count of a category is its share of the 21 weekly meals, so it
      does not depend on the cat's weight at all; only a zero daily amount
      leaves it undefined. */
  lemma BagsAreShareOfMeals(cat: Cat, percentage: real)
    requires cat.DailyFood() != 0.0
    ensures GetBags(cat, percentage).bags == Some(Round1(21.0 * percentage / 100.0))
  {
    var d := cat.DailyFood();
    var totalNeeded := WeeklyTotal(cat) * (percentage / 100.0);
    var meal := MealSize(cat);
    var share := 21.0 * percentage / 100.0;
    assert totalNeeded == meal * share;
    assert totalNeeded / meal == share;
  }

  /** The categories in their fixed display order with their percentages. */
  function AllCategories(r: DietRatios): seq<(MeatCategory, real)> {
    [(Red, r.redMeatPercent), (White, r.whiteMeatPercent), (Heart, r.heartPercent),
     (Organ, r.organPercent), (Bone, r.bonePercent)]
  }

  function HasShare(c: (MeatCategory, real)): bool {
    c.1 > 0.0
  }

  /** A category's place in the plan's display order. */
  function DisplayRank(c: MeatCategory): int {
    match c
    case Red => 0
    case White => 1
    case Heart => 2
    case Organ => 3
    case Bone => 4
  }

  function RowRank(e: (MeatCategory, real)): int {
    DisplayRank(e.0)
  }

  /** The rows of the plan: only categories with a positive percentage, in
      the fixed order red, white, heart, organ, bone, each at most once. */
  function Categories(r: DietRatios): (rows: seq<(MeatCategory, real)>)
    ensures |rows| <= 5
    ensures forall e :: e in rows ==> e.1 == r.Percent(e.0) && e.1 > 0.0
    ensures forall i, j :: 0 <= i < j < |rows| ==> DisplayRank(rows[i].0) < DisplayRank(rows[j].0)
  {
    var all := AllCategories(r);
    assert forall e :: e in all ==> e.1 == r.Percent(e.0);
    FilterKeepsIncreasing(all, HasShare, RowRank);
    Filter(all, HasShare)
  }

  lemma CategoriesKept(r: DietRatios, c: MeatCategory)
    ensures (c, r.Percent(c)) in Categories(r) <==> r.Percent(c) > 0.0
    ensures forall e :: e in Categories(r) ==> e.1 == r.Percent(e.0) && e.1 > 0.0
  {
    assert (c, r.Percent(c)) in AllCategories(r);
    assert forall e :: e in AllCategories(r) ==> e.1 == r.Percent(e.0);
  }

  function UnroundedBags(c: (MeatCategory, real)): real {
    21.0 * c.1 / 100.0
  }

  /** With no negative percentage the unrounded bag counts of the rows add up
      to 21 times the percentage total over 100: exactly the 21 weekly meals
      when the percentages add up to 100. */
  lemma {:induction false} UnroundedBagsSum(r: DietRatios)
    requires forall c :: r.Percent(c) >= 0.0
    ensures Sum(Categories(r), UnroundedBags) == 21.0 * r.TotalPercentage() / 100.0
    ensures r.TotalPercentage() == 100.0 ==> Sum(Categories(r), UnroundedBags) == TotalMeals as real
  {
    var all := AllCategories(r);
    forall i | 0 <= i < |all| && !HasShare(all[i]) ensures UnroundedBags(all[i]) == 0.0 {
      assert all[i].1 == r.Percent(all[i].0);
    }
    SumFilterZeros(all, HasShare, UnroundedBags);
    SumOfFive(all[0], all[1], all[2], all[3], all[4], UnroundedBags);
    assert all == [all[0], all[1], all[2], all[3], all[4]];
  }

  lemma SumOfFive<T>(a: T, b: T, c: T, d: T, e: T, f: T -> real)
    ensures Sum([a, b, c, d, e], f) == f(a) + f(b) + f(c) + f(d) + f(e)
  {
    assert [e][1..] == [];
    assert Sum([e], f) == f(e);
    assert [d, e][1..] == [e];
    assert Sum([d, e], f) == f(d) + f(e);
    assert [c, d, e][1..] == [d, e];
    assert Sum([c, d, e], f) == f(c) + f(d) + f(e);
    assert [b, c, d, e][1..] == [c, d, e];
    assert Sum([b, c, d, e], f) == f(b) + f(c) + f(d) + f(e);
    assert [a, b, c, d, e][1..] == [b, c, d, e];
  }

  /** A row's rounded bag count; zero stands in for NaN, which only arises
      when every row is NaN. */
  function RowBags(cat: Cat, c: (MeatCategory, real)): real {
    match GetBags(cat, c.1).bags
    case Some(b) => b
    case None => 0.0
  }

  function BagsOf(cat: Cat): ((MeatCategory, real)) -> real {
    (c: (MeatCategory, real)) => RowBags(cat, c)
  }

  /** The footer's bag total: the rounded row counts added and shown to one
      decimal; NaN (`None`) when there are rows and no daily food. */
  function DisplayedBagTotal(cat: Cat): (total: Option<real>)
    ensures total.None? <==> Categories(cat.dietRatios) != [] && cat.DailyFood() == 0.0
    ensures Categories(cat.dietRatios) == [] ==> total == Some(0.0)
    ensures total.Some? ==> total.value == Round1(Sum(Categories(cat.dietRatios), BagsOf(cat)))
    ensures total.Some? ==> (10.0 * total.value).Floor as real == 10.0 * total.value
  {
    var rows := Categories(cat.dietRatios);
    if rows != [] && cat.DailyFood() == 0.0 then None
    else Some(Round1(Sum(rows, BagsOf(cat))))
  }

  /** Rounding each row and then the total keeps the footer within 0.05 per
      row, plus 0.05, of 21 times the percentage total over 100: within 0.3
      of the 21 weekly meals when the percentages add up to 100. */
  lemma BagTotalNearMeals(cat: Cat)
    requires cat.DailyFood() != 0.0
    requires forall c :: cat.dietRatios.Percent(c) >= 0.0
    ensures DisplayedBagTotal(cat).Some?
    ensures var exact := 21.0 * cat.dietRatios.TotalPercentage() / 100.0;
      var slack := 0.05 * (|Categories(cat.dietRatios)| + 1) as real;
      exact - slack <= DisplayedBagTotal(cat).value <= exact + slack
  {
    var r := cat.dietRatios;
    var rows := Categories(r);
    RowsNearShares(cat, rows);
    UnroundedBagsSum(r);
    RoundedSumNear(Sum(rows, BagsOf(cat)), 21.0 * r.TotalPercentage() / 100.0, |rows|);
    assert DisplayedBagTotal(cat) == Some(Round1(Sum(rows, BagsOf(cat))));
  }

  /** The rounded bag counts of any rows add up to within 0.05 per row of
      their unrounded shares. */
  lemma RowsNearShares(cat: Cat, rows: seq<(MeatCategory, real)>)
    requires cat.DailyFood() != 0.0
    ensures var n := |rows| as real;
      Sum(rows, UnroundedBags) - 0.05 * n <= Sum(rows, BagsOf(cat)) <= Sum(rows, UnroundedBags) + 0.05 * n
  {
    forall i | 0 <= i < |rows|
      ensures UnroundedBags(rows[i]) - 0.05 <= BagsOf(cat)(rows[i]) <= UnroundedBags(rows[i]) + 0.05
    {
      RowBagsNearShare(cat, rows[i]);
    }
    SumWithin(rows, BagsOf(cat), UnroundedBags, 0.05);
  }

  lemma RoundedSumNear(s: real, exact: real, n: nat)
    requires exact - 0.05 * n as real <= s <= exact + 0.05 * n as real
    ensures exact - 0.05 * (n + 1) as real <= Round1(s) <= exact + 0.05 * (n + 1) as real
  {
  }

  /** One row's rounded bag count is within 0.05 of its unrounded share of
      the 21 meals. */
  lemma RowBagsNearShare(cat: Cat, c: (MeatCategory, real))
    requires cat.DailyFood() != 0.0
    ensures UnroundedBags(c) - 0.05 <= BagsOf(cat)(c) <= UnroundedBags(c) + 0.05
  {
    BagsAreShareOfMeals(cat, c.1);
  }

  /** The displayed total is only an approximation of the 21 bags: with the
      default ratios each 5% row rounds 1.05 up to 1.1, so the footer reads 21.1. */
  lemma BagTotalDrift(cat: Cat)
    requires cat.weight == 4000.0 && cat.dietRatios == DefaultDietRatios
    ensures GetBags(cat, 40.0) == BagPlan(336, Some(8.4))
    ensures DisplayedBagTotal(cat) == Some(21.1)
  {
    var r := cat.dietRatios;
    var all := AllCategories(r);
    assert cat.DailyFood() == 120.0;
    FilterAll(all, HasShare);
    DefaultRows(cat);
    var row := BagsOf(cat);
    SumOfFive(all[0], all[1], all[2], all[3], all[4], row);
    assert all == [all[0], all[1], all[2], all[3], all[4]];
    assert Sum(all, row) == 21.1;
    assert Round(211.0) == 211;
  }

  lemma DefaultRows(cat: Cat)
    requires cat.weight == 4000.0 && cat.dietRatios == DefaultDietRatios
    ensures GetBags(cat, 40.0) == BagPlan(336, Some(8.4))
    ensures RowBags(cat, (Heart, 5.0)) == 1.1 && RowBags(cat, (Bone, 10.0)) == 2.1
    ensures RowBags(cat, (Red, 40.0)) == 8.4 && RowBags(cat, (White, 40.0)) == 8.4
    ensures RowBags(cat, (Organ, 5.0)) == 1.1
  {
    assert cat.DailyFood() == 120.0;
    assert WeeklyTotal(cat) * (40.0 / 100.0) == 336.0;
    assert Round(336.0) == 336;
    BagsAreShareOfMeals(cat, 40.0);
    BagsAreShareOfMeals(cat, 5.0);
    BagsAreShareOfMeals(cat, 10.0);
    assert Round(84.0) == 84 && Round(10.5) == 11 && Round(21.0) == 21;
  }

  /** The same seven rules as the ratio screen, in the same order and
      units; only the muscle mass they start from differs: here it comes from
      the unrounded daily food. */
  function PlanSupplements(cat: Cat, today: Date): (t: seq<SupplementDose>)
    ensures t == SupplementTable(MuscleMass(cat.DailyFood(), cat.dietRatios), GetLifeStage(cat.birthDate, today))
    ensures |t| == |DietSupplements(cat, today)|
    ensures forall i :: 0 <= i < |t| ==>
      t[i].supplement == DietSupplements(cat, today)[i].supplement && t[i].unit == DietSupplements(cat, today)[i].unit
  {
    SupplementTable(MuscleMass(cat.DailyFood(), cat.dietRatios), GetLifeStage(cat.birthDate, today))
  }

  /** The muscle masses the two screens start from differ by at most half a
      gram's worth of the muscle share, since the ratio screen rounds the
      daily food to the nearest gram first. */
  lemma PlanMuscleNearDiet(cat: Cat)
    requires cat.dietRatios.Percent(Red) >= 0.0 && cat.dietRatios.Percent(White) >= 0.0
    ensures var share := (cat.dietRatios.Percent(Red) + cat.dietRatios.Percent(White)) / 100.0;
      var plan := MuscleMass(cat.DailyFood(), cat.dietRatios);
      var diet := MuscleMass(DailyTotal(cat) as real, cat.dietRatios);
      diet - 0.5 * share <= plan <= diet + 0.5 * share
  {
    var r := cat.dietRatios;
    var share := (r.Percent(Red) + r.Percent(White)) / 100.0;
    var food := cat.DailyFood();
    var total := DailyTotal(cat) as real;
    assert MuscleMass(food, r) == food * share;
    assert MuscleMass(total, r) == total * share;
    MulNonNegative(food - total + 0.5, share);
    MulNonNegative(total + 0.5 - food, share);
    assert (food - total + 0.5) * share == food * share - total * share + 0.5 * share;
    assert (total + 0.5 - food) * share == total * share + 0.5 * share - food * share;
  }

  /** The difference is visible: at 4123 g and 3% the plan starts from
      123.69 g of food a day and the ratio screen from 124 g, so their
      eggshell doses differ. */
  lemma PlanSupplementsDifferFromDiet(cat: Cat, today: Date)
    requires cat.weight == 4123.0 && cat.dietRatios == DefaultDietRatios
    ensures PlanSupplements(cat, today)[0].daily != DietSupplements(cat, today)[0].daily
    ensures PlanSupplements(cat, today) != DietSupplements(cat, today)
  {
    assert cat.DailyFood() == 123.69;
    assert DailyTotal(cat) == 124;
  }

  /** The two screens apply the same rules and differ only in rounding: when
      the daily food is a whole number of grams their supplement tables agree. */
  lemma PlanSupplementsMatchDiet(cat: Cat, today: Date)
    requires cat.DailyFood() == cat.DailyFood().Floor as real
    ensures PlanSupplements(cat, today) == DietSupplements(cat, today)
  {
    var n := cat.DailyFood().Floor;
    assert Round(n as real) == n;
    assert DailyTotal(cat) as real == cat.DailyFood();
  }

  /** A 30-day supplement total, in kilograms or in the dose's own unit. */
  datatype MonthlyAmount = Kilograms(kg: real) | InUnit(amount: real, unit: DoseUnit)

  function GetSuppTotal(daily: real, unit: DoseUnit): (m: MonthlyAmount)
    ensures m.Kilograms? <==> unit == Grams && daily * 30.0 >= 1000.0
    ensures m.Kilograms? ==> m.kg * 1000.0 == daily * SupplementDays as real
    ensures m.InUnit? ==> m.amount == daily * SupplementDays as real && m.unit == unit
  {
    var total := daily * SupplementDays as real;
    if unit == Grams && total >= 1000.0 then Kilograms(total / 1000.0) else InUnit(total, unit)
  }
}
