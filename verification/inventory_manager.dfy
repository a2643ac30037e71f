/** The inventory ledger: aggregate daily consumption over all cats,
    days-of-supply with its 999 sentinel, the top-up-to-a-week suggestion,
    the watch list of items being consumed, and the handlers that change the
    stock list and the inbound log. */
module InventoryManager {
  import opened Util
  import opened Types

  /** What `getDailyConsumption` is asked for: the muscle group (red plus
      white), the organ group (heart plus other organs) or one category. */
  datatype ConsumptionKey = Muscle | OrganGroup | Category(category: MeatCategory)

  function KeyPercent(r: DietRatios, key: ConsumptionKey): real {
    match key
    case Muscle => r.redMeatPercent + r.whiteMeatPercent
    case OrganGroup => r.heartPercent + r.organPercent
    case Category(c) => r.Percent(c)
  }

  /** One cat's daily grams for a key, from its unrounded daily food. */
  function CatConsumption(cat: Cat, key: ConsumptionKey): real {
    cat.DailyFood() * (KeyPercent(cat.dietRatios, key) / 100.0)
  }

  /** Grams per day eaten by all cats together; zero for no cats. */
  function GetDailyConsumption(cats: seq<Cat>, key: ConsumptionKey): (daily: real)
    ensures cats == [] ==> daily == 0.0
  {
    if cats == [] then 0.0 else CatConsumption(cats[0], key) + GetDailyConsumption(cats[1..], key)
  }

  /** Adding a cat adds exactly that cat's own consumption. */
  lemma {:induction false} ConsumptionAppend(cats: seq<Cat>, cat: Cat, key: ConsumptionKey)
    ensures GetDailyConsumption(cats + [cat], key) == GetDailyConsumption(cats, key) + CatConsumption(cat, key)
  {
    if cats != [] {
      assert (cats + [cat])[1..] == cats[1..] + [cat];
      ConsumptionAppend(cats[1..], cat, key);
    }
  }

  /** Cats whose weight and percentages are not negative never make the
      aggregate rate negative. */
  lemma {:induction false} ConsumptionNonNegative(cats: seq<Cat>, key: ConsumptionKey)
    requires forall i :: 0 <= i < |cats| ==> cats[i].weight >= 0.0 && cats[i].dietRatios.dailyIntakePercent >= 0.0
    requires forall i, c :: 0 <= i < |cats| ==> cats[i].dietRatios.Percent(c) >= 0.0
    ensures GetDailyConsumption(cats, key) >= 0.0
  {
    if cats != [] {
      ConsumptionNonNegative(cats[1..], key);
      var c := cats[0];
      var d := c.DailyFood();
      MulNonNegative(c.weight, c.dietRatios.dailyIntakePercent / 100.0);
      assert KeyPercent(c.dietRatios, key) >= 0.0 by {
        assert c.dietRatios.Percent(Red) >= 0.0 && c.dietRatios.Percent(White) >= 0.0;
        assert c.dietRatios.Percent(Heart) >= 0.0 && c.dietRatios.Percent(Organ) >= 0.0;
        assert c.dietRatios.Percent(Bone) >= 0.0;
      }
      MulNonNegative(d, KeyPercent(c.dietRatios, key) / 100.0);
    }
  }

  /** The group rates are the sums of their category rates. */
  lemma {:induction false} GroupsAreSumsOfCategories(cats: seq<Cat>)
    ensures GetDailyConsumption(cats, Muscle)
         == GetDailyConsumption(cats, Category(Red)) + GetDailyConsumption(cats, Category(White))
    ensures GetDailyConsumption(cats, OrganGroup)
         == GetDailyConsumption(cats, Category(Heart)) + GetDailyConsumption(cats, Category(Organ))
  {
    if cats != [] {
      GroupsAreSumsOfCategories(cats[1..]);
      var c := cats[0];
      var d := c.DailyFood();
      var r := c.dietRatios;
      assert d * ((r.redMeatPercent + r.whiteMeatPercent) / 100.0)
          == d * (r.redMeatPercent / 100.0) + d * (r.whiteMeatPercent / 100.0);
      assert d * ((r.heartPercent + r.organPercent) / 100.0)
          == d * (r.heartPercent / 100.0) + d * (r.organPercent / 100.0);
    }
  }

  /** Days a stock lasts at a daily usage; 999 stands for "unlimited" when
      nothing is eaten. */
  function CalculateDays(grams: real, dailyUsage: real): (days: real)
    ensures dailyUsage == 0.0 ==> days == 999.0
    ensures dailyUsage != 0.0 ==> days * dailyUsage == grams
  {
    if dailyUsage == 0.0 then 999.0 else grams / dailyUsage
  }

  function Abs(x: real): real {
    if x < 0.0 then -x else x
  }

  /** Grams missing to the next whole week: `daily*7 - total % (daily*7)`;
      `None` where the remainder by zero is NaN. */
  function MissingForWeek(total: real, daily: real): (missing: Option<real>)
    ensures missing.Some? <==> daily != 0.0
    ensures missing.Some? ==> total + missing.value == (Trunc(total / (daily * 7.0)) + 1) as real * (daily * 7.0)
  {
    if daily == 0.0 then None else Some(daily * 7.0 - JsRem(total, daily * 7.0))
  }

  /** An availability card: days of supply (the unrounded quotient; the card
      shows its floor), whether the stock is within a gram of a whole number
      of weeks, and the suggested top-up. */
  datatype SupplyCheck = SupplyCheck(days: real, isMultiple: bool, suggestion: Option<int>)

  function CheckSupply(total: real, daily: real): (c: SupplyCheck)
    ensures c.days == CalculateDays(total, daily)
    ensures c.suggestion.Some? <==> !c.isMultiple && c.days < 100.0
    ensures c.suggestion.Some? ==>
      MissingForWeek(total, daily).Some? && c.suggestion.value == Round(MissingForWeek(total, daily).value)
    ensures daily == 0.0 ==> c.suggestion == None && !c.isMultiple
    ensures daily != 0.0 ==>
      (c.isMultiple <==>
         Abs(JsRem(total, daily * 7.0)) < 1.0 || Abs(daily * 7.0 - JsRem(total, daily * 7.0)) < 1.0)
  {
    var days := CalculateDays(total, daily);
    var isMultiple :=
      match MissingForWeek(total, daily)
      case None => false  // NaN compares false
      case Some(m) => Abs(m - daily * 7.0) < 1.0 || Abs(m) < 1.0;
    SupplyCheck(days, isMultiple,
      if !isMultiple && days < 100.0 then Some(Round(MissingForWeek(total, daily).value)) else None)
  }

  /** `total` lies within a gram of `k` weeks' use at `daily` grams a day. */
  predicate NearWeeks(total: real, daily: real, k: int) {
    Abs(total - k as real * (daily * 7.0)) < 1.0
  }

  /** For a stock and a positive usage, the card counts the stock as a
      whole number of weeks exactly when it lies within a gram of some
      whole number of weeks' use. */
  lemma MultipleIffNearWholeWeeks(total: real, daily: real)
    requires total >= 0.0 && daily > 0.0
    ensures CheckSupply(total, daily).isMultiple <==> exists k: int :: NearWeeks(total, daily, k)
  {
    if CheckSupply(total, daily).isMultiple {
      MultipleIsNearWeeks(total, daily);
    }
    if exists k: int :: NearWeeks(total, daily, k) {
      var k: int :| NearWeeks(total, daily, k);
      NearWeeksIsMultiple(total, daily, k);
    }
  }

  lemma MultipleIsNearWeeks(total: real, daily: real)
    requires total >= 0.0 && daily > 0.0
    requires CheckSupply(total, daily).isMultiple
    ensures NearWeeks(total, daily, Trunc(total / (daily * 7.0)))
         || NearWeeks(total, daily, Trunc(total / (daily * 7.0)) + 1)
  {
    var w := daily * 7.0;
    var big := Trunc(total / w);
    var rem := JsRem(total, w);
    JsRemRange(total, w);
    assert total - big as real * w == rem;
    assert total - (big + 1) as real * w == rem - w;
  }

  lemma NearWeeksIsMultiple(total: real, daily: real, k: int)
    requires total >= 0.0 && daily > 0.0
    requires NearWeeks(total, daily, k)
    ensures CheckSupply(total, daily).isMultiple
  {
    var w := daily * 7.0;
    var big := Trunc(total / w);
    var rem := JsRem(total, w);
    JsRemRange(total, w);
    assert total == big as real * w + rem;
    assert Abs(total - k as real * w) < 1.0;
    if k <= big {
      var d := (big - k) as real;
      MulNonNegative(d, w);
      assert total - k as real * w == rem + d * w;
      assert 0.0 <= rem <= total - k as real * w;
      assert Abs(rem) < 1.0;
    } else {
      var d := (k - big - 1) as real;
      MulNonNegative(d, w);
      assert k as real * w - total == (w - rem) + d * w;
      assert 0.0 < w - rem <= k as real * w - total;
      assert Abs(w - rem) < 1.0;
    }
  }

  /** `g` grams is a whole number of weeks at `daily` grams a day. */
  predicate WholeWeeks(g: real, daily: real)
    requires daily != 0.0
  {
    (g / (7.0 * daily)).Floor as real == g / (7.0 * daily)
  }

  /** Topping up by the missing amount always completes a whole number of
      weeks, and never asks for more than one week. */
  lemma TopUpCompletesWeeks(total: real, daily: real)
    requires total >= 0.0 && daily > 0.0
    ensures MissingForWeek(total, daily).Some?
    ensures 0.0 < MissingForWeek(total, daily).value <= 7.0 * daily
    ensures WholeWeeks(total + MissingForWeek(total, daily).value, daily)
  {
    var w := daily * 7.0;
    JsRemRange(total, w);
    var k := Trunc(total / w) as real;
    var m := MissingForWeek(total, daily).value;
    assert total + m == (k + 1.0) * w;
    var q := (total + m) / w;
    assert w != 0.0;
    assert q * w == total + m;
    assert (q - (k + 1.0)) * w == 0.0;
    assert q == (Trunc(total / w) + 1) as real;
    assert 7.0 * daily == w;
  }

  lemma SupplyExamples()
    ensures CalculateDays(700.0, 100.0) == 7.0 && CalculateDays(700.0, 0.0) == 999.0
    ensures CheckSupply(700.0, 100.0).isMultiple && CheckSupply(700.0, 100.0).suggestion == None
    ensures CheckSupply(650.0, 100.0).suggestion == Some(50)
  {
    assert Trunc(1.0) == 1;
    assert Trunc(650.0 / 700.0) == 0;
    assert Round(50.0) == 50;
  }

  function ItemGrams(i: InventoryItem): real {
    i.grams
  }

  function InStockIn(m: InventoryModule): InventoryItem -> bool {
    (i: InventoryItem) => i.status == InStock && i.stockModule == m
  }

  /** The summary's stock of a module: in-stock items only. */
  function StockTotal(items: seq<InventoryItem>, m: InventoryModule): (total: real)
    ensures (forall i :: 0 <= i < |items| ==> items[i].grams >= 0.0) ==> total >= 0.0
  {
    FilteredSumNonNegative(items, InStockIn(m), ItemGrams);
    Sum(Filter(items, InStockIn(m)), ItemGrams)
  }

  /** An added item counts toward its module's stock only while in stock;
      items being consumed or consumed never count. */
  lemma StockTotalAppend(items: seq<InventoryItem>, x: InventoryItem, m: InventoryModule)
    ensures StockTotal(items + [x], m)
         == StockTotal(items, m) + (if x.status == InStock && x.stockModule == m then x.grams else 0.0)
  {
    FilterAppend(items, [x], InStockIn(m));
    SumAppend(Filter(items, InStockIn(m)), Filter([x], InStockIn(m)), ItemGrams);
    assert [x][1..] == [];
  }

  function InStockWith(m: InventoryModule, c: MeatCategory): InventoryItem -> bool {
    (i: InventoryItem) => i.status == InStock && i.stockModule == m && i.category == c
  }

  /** In-stock grams of one category within a module, as the module list's
      stats bar shows them. */
  function InStockGrams(items: seq<InventoryItem>, m: InventoryModule, c: MeatCategory): (total: real)
    ensures (forall i :: 0 <= i < |items| ==> items[i].grams >= 0.0) ==> total >= 0.0
  {
    FilteredSumNonNegative(items, InStockWith(m, c), ItemGrams);
    Sum(Filter(items, InStockWith(m, c)), ItemGrams)
  }

  /** The stats bar of a module list: red and white for muscle meat, heart
      and other organs for offal (each bar also shows the sum of its two
      figures), bone alone for bone. */
  function ModuleStats(items: seq<InventoryItem>, m: InventoryModule): (s: seq<(MeatCategory, real)>)
    ensures forall e :: e in s ==> e.1 == InStockGrams(items, m, e.0)
    ensures m == MeatModule ==> |s| == 2 && s[0].0 == Red && s[1].0 == White
    ensures m == OrganModule ==> |s| == 2 && s[0].0 == Heart && s[1].0 == Organ
    ensures m == BoneModule ==> |s| == 1 && s[0].0 == Bone
  {
    match m
    case MeatModule => [(Red, InStockGrams(items, m, Red)), (White, InStockGrams(items, m, White))]
    case OrganModule => [(Heart, InStockGrams(items, m, Heart)), (Organ, InStockGrams(items, m, Organ))]
    case BoneModule => [(Bone, InStockGrams(items, m, Bone))]
  }

  /** The summary's module total splits into the per-category stock figures. */
  lemma {:induction false} StockByCategory(items: seq<InventoryItem>, m: InventoryModule)
    ensures StockTotal(items, m) == InStockGrams(items, m, Red) + InStockGrams(items, m, White)
      + InStockGrams(items, m, Heart) + InStockGrams(items, m, Organ) + InStockGrams(items, m, Bone)
  {
    if items != [] {
      StockByCategory(items[1..], m);
      var x := items[0];
      assert items == [x] + items[1..];
      SumFilterCons(x, items[1..], InStockIn(m), ItemGrams);
      SumFilterCons(x, items[1..], InStockWith(m, Red), ItemGrams);
      SumFilterCons(x, items[1..], InStockWith(m, White), ItemGrams);
      SumFilterCons(x, items[1..], InStockWith(m, Heart), ItemGrams);
      SumFilterCons(x, items[1..], InStockWith(m, Organ), ItemGrams);
      SumFilterCons(x, items[1..], InStockWith(m, Bone), ItemGrams);
    }
  }

  /** The categories the add form produces in each module. */
  function ModuleCategories(m: InventoryModule): set<MeatCategory> {
    match m
    case MeatModule => {Red, White}
    case OrganModule => {Heart, Organ}
    case BoneModule => {Bone}
  }

  lemma NoInStockOf(items: seq<InventoryItem>, m: InventoryModule, c: MeatCategory)
    requires forall i :: 0 <= i < |items| && items[i].status == InStock && items[i].stockModule == m
               ==> items[i].category != c
    ensures InStockGrams(items, m, c) == 0.0
  {
  }

  /** When every in-stock item of a module has one of the module's own
      categories, the stats bar's figures add up to the summary's total. */
  lemma ModuleStatsMatchSummary(items: seq<InventoryItem>, m: InventoryModule)
    requires forall i :: 0 <= i < |items| && items[i].status == InStock && items[i].stockModule == m
               ==> items[i].category in ModuleCategories(m)
    ensures m == MeatModule ==> InStockGrams(items, m, Red) + InStockGrams(items, m, White) == StockTotal(items, m)
    ensures m == OrganModule ==> InStockGrams(items, m, Heart) + InStockGrams(items, m, Organ) == StockTotal(items, m)
    ensures m == BoneModule ==> InStockGrams(items, m, Bone) == StockTotal(items, m)
  {
    StockByCategory(items, m);
    match m
    case MeatModule =>
      NoInStockOf(items, m, Heart);
      NoInStockOf(items, m, Organ);
      NoInStockOf(items, m, Bone);
    case OrganModule =>
      NoInStockOf(items, m, Red);
      NoInStockOf(items, m, White);
      NoInStockOf(items, m, Bone);
    case BoneModule =>
      NoInStockOf(items, m, Red);
      NoInStockOf(items, m, White);
      NoInStockOf(items, m, Heart);
      NoInStockOf(items, m, Organ);
  }

  /** A name filter is a substring test; the empty filter keeps everything. */
  predicate Contains(s: string, sub: string)
    decreases |s|
  {
    if |sub| > |s| then false
    else if s[..|sub|] == sub then true
    else Contains(s[1..], sub)
  }

  datatype StatusFilter = AllStatuses | OnlyStatus(status: InventoryStatus)

  function InModule(m: InventoryModule): InventoryItem -> bool {
    (i: InventoryItem) => i.stockModule == m
  }

  function PassesFilters(filterName: string, filterStatus: StatusFilter): InventoryItem -> bool {
    (i: InventoryItem) => (filterName == "" || Contains(i.name, filterName))
         && (filterStatus == AllStatuses || filterStatus == OnlyStatus(i.status))
  }

  /** A module's list: its items whose name contains the filter text and
      whose status matches the filter (or the filter is 'all'), in stock order. */
  function ModuleList(items: seq<InventoryItem>, m: InventoryModule, filterName: string, filterStatus: StatusFilter)
    : (r: seq<InventoryItem>)
    ensures forall i :: i in r <==>
      i in items && i.stockModule == m && Contains(i.name, filterName)
      && (filterStatus.AllStatuses? || filterStatus.status == i.status)
  {
    EmptyFilterMatches(filterName);
    Filter(Filter(items, InModule(m)), PassesFilters(filterName, filterStatus))
  }

  lemma EmptyFilterMatches(filterName: string)
    ensures forall s: string :: filterName == "" ==> Contains(s, filterName)
  {
    forall s: string | filterName == "" ensures Contains(s, filterName) {
      assert s[..0] == "";
    }
  }

  /** Items on the watch list: being consumed, with a start date. */
  function IsMonitored(i: InventoryItem): bool {
    i.status == Consuming && i.startConsumeDate.Some?
  }

  /** The rate an item is used up at: its own category's aggregate rate,
      except that anything in the bone module uses the bone rate. */
  function ItemDailyUsage(cats: seq<Cat>, item: InventoryItem): (rate: real)
    ensures item.stockModule == BoneModule ==> rate == GetDailyConsumption(cats, Category(Bone))
    ensures item.stockModule != BoneModule ==> rate == GetDailyConsumption(cats, Category(item.category))
  {
    if item.stockModule == MeatModule then GetDailyConsumption(cats, Category(item.category))
    else if item.stockModule == BoneModule then GetDailyConsumption(cats, Category(Bone))
    else GetDailyConsumption(cats, Category(item.category))
  }

  /** `addDate`: `setDate` truncates the shifted day of the month toward
      zero, so a span that is not negative moves the date by its whole part:
      the last day not after `start + days`. */
  function AddDays(start: Day, days: real): (end: Day)
    ensures days >= 0.0 ==> start <= end && end as real <= start as real + days < end as real + 1.0
  {
    start + Trunc(days)
  }

  /** A watched item: when it should run out, the whole days left as counted
      from the instant `now`, and its alert flags. */
  datatype Projection = Projection(item: InventoryItem, endDay: Day, daysLeft: int, isOverdue: bool, isLow: bool)

  function Project(cats: seq<Cat>, item: InventoryItem, now: real): (p: Projection)
    requires item.startConsumeDate.Some?
    ensures p.item == item
    ensures p.endDay == AddDays(item.startConsumeDate.value, CalculateDays(item.grams, ItemDailyUsage(cats, item)))
    ensures p.daysLeft == Ceil(p.endDay as real - now)
    ensures p.isOverdue <==> p.daysLeft < 0
    ensures p.isLow <==> 0 <= p.daysLeft <= 3
    ensures !(p.isOverdue && p.isLow)
  {
    var totalDays := CalculateDays(item.grams, ItemDailyUsage(cats, item));
    var endDay := AddDays(item.startConsumeDate.value, totalDays);
    var daysLeft := Ceil(endDay as real - now);
    Projection(item, endDay, daysLeft, daysLeft < 0, daysLeft <= 3 && daysLeft >= 0)
  }

  /** The watch list, one projection per monitored item in stock order. */
  function ConsumingProjections(cats: seq<Cat>, items: seq<InventoryItem>, now: real): (ps: seq<Projection>)
    ensures |ps| == |Filter(items, IsMonitored)|
    ensures forall k :: 0 <= k < |ps| ==> ps[k].item == Filter(items, IsMonitored)[k]
    ensures forall k :: 0 <= k < |ps| ==> ps[k].item.status == Consuming && !(ps[k].isOverdue && ps[k].isLow)
    ensures forall k :: 0 <= k < |ps| ==> ps[k] == Project(cats, Filter(items, IsMonitored)[k], now)
  {
    var watched := Filter(items, IsMonitored);
    seq(|watched|, k requires 0 <= k < |watched| => Project(cats, watched[k], now))
  }

  /** Read at any moment during day `today`, the days left are the whole days
      from today to the projected end day. */
  lemma DaysLeftDuringToday(cats: seq<Cat>, item: InventoryItem, today: Day, now: real)
    requires item.startConsumeDate.Some?
    requires today as real <= now < today as real + 1.0
    ensures Project(cats, item, now).daysLeft == Project(cats, item, now).endDay - today
  {
  }

  /** With a positive usage, the projected end day is the last day on which
      the stock still covers every whole day since the start: the days from
      start to end use at most the stock, one more day would use more. */
  lemma EndDayBracketsStock(cats: seq<Cat>, item: InventoryItem, now: real)
    requires item.startConsumeDate.Some?
    requires ItemDailyUsage(cats, item) > 0.0 && item.grams >= 0.0
    ensures var n := Project(cats, item, now).endDay - item.startConsumeDate.value;
      && n >= 0
      && n as real * ItemDailyUsage(cats, item) <= item.grams
      && item.grams < (n + 1) as real * ItemDailyUsage(cats, item)
  {
    var u := ItemDailyUsage(cats, item);
    WholeDaysBracket(item.grams, u);
    assert Project(cats, item, now).endDay - item.startConsumeDate.value == Trunc(item.grams / u);
  }

  /** The whole days `grams` lasts at `usage` a day bracket the stock. */
  lemma WholeDaysBracket(grams: real, usage: real)
    requires grams >= 0.0 && usage > 0.0
    ensures var n := Trunc(grams / usage);
      n >= 0 && n as real * usage <= grams < (n + 1) as real * usage
  {
    var days := grams / usage;
    var n := Trunc(days);
    assert days * usage == grams;
    MulNonNegative(grams, 1.0 / usage);
    assert days >= 0.0;
    MulNonNegative(days - n as real, usage);
    MulNonNegative(n as real + 1.0 - days, usage);
  }

  /** With nothing eaten an item is projected to last the 999-day sentinel. */
  lemma IdleItemLastsSentinel(cats: seq<Cat>, item: InventoryItem, now: real)
    requires item.startConsumeDate.Some?
    requires ItemDailyUsage(cats, item) == 0.0
    ensures Project(cats, item, now).endDay == item.startConsumeDate.value + 999
  {
  }

  /** The add form; absent fields are `None`. */
  datatype ItemDraft = ItemDraft(
    name: Option<string>,
    grams: Option<real>,
    category: Option<MeatCategory>,
    status: Option<InventoryStatus>,
    inStockDate: Option<Day>,
    startConsumeDate: Option<Day>)

  /** The form as it is reset after every save. */
  const EmptyItemDraft: ItemDraft := ItemDraft(None, Some(500.0), None, Some(InStock), None, None)

  /** Saving needs a non-empty name and a non-zero amount. */
  predicate DraftAccepted(d: ItemDraft) {
    d.name.Some? && d.name.value != "" && d.grams.Some? && d.grams.value != 0.0
  }

  function DefaultCategory(m: InventoryModule): MeatCategory {
    if m == BoneModule then Bone else Red
  }

  /** The item a saved form creates in module `m` on day `today`. */
  function NewItem(d: ItemDraft, m: InventoryModule, today: Day, id: string): (item: InventoryItem)
    requires DraftAccepted(d)
    ensures item.id == id && item.stockModule == m && item.name == d.name.value && item.grams == d.grams.value
    ensures item.category == OrElse(d.category, DefaultCategory(m))
    ensures item.status == OrElse(d.status, InStock)
    ensures item.inStockDate == OrElse(d.inStockDate, today)
    ensures item.startConsumeDate.Some? <==> d.status == Some(Consuming)
    ensures d.status == Some(Consuming) ==> item.startConsumeDate == Some(OrElse(d.startConsumeDate, today))
    ensures item.endConsumeDate == None
  {
    InventoryItem(id, m, OrElse(d.category, DefaultCategory(m)), d.name.value, d.grams.value,
      OrElse(d.status, InStock), OrElse(d.inStockDate, today),
      if d.status == Some(Consuming) then Some(OrElse(d.startConsumeDate, today)) else None,
      None)
  }

  /** The inbound log entry for a directly stocked item. */
  function DirectRecord(item: InventoryItem, id: string): (r: InboundRecord)
    ensures r.id == id && r.inboundType == Direct && r.adjustType == Added
    ensures r.stockModule == item.stockModule && r.category == item.category
    ensures r.name == item.name && r.grams == item.grams && r.date == item.inStockDate
  {
    InboundRecord(id, Direct, item.stockModule, item.category, item.name, item.grams, item.inStockDate, Added)
  }

  /** One item moved to `status` on `today`: starting consumption restamps
      the start date, finishing stamps the end date, and moving back to
      stock changes the status only. */
  function ChangeStatus(item: InventoryItem, status: InventoryStatus, today: Day): (r: InventoryItem)
    ensures r.status == status
    ensures r.(status := item.status, startConsumeDate := item.startConsumeDate, endConsumeDate := item.endConsumeDate) == item
    ensures r.startConsumeDate == (if status == Consuming then Some(today) else item.startConsumeDate)
    ensures r.endConsumeDate == (if status == Consumed then Some(today) else item.endConsumeDate)
  {
    match status
    case Consuming => item.(status := status, startConsumeDate := Some(today))
    case Consumed => item.(status := status, endConsumeDate := Some(today))
    case InStock => item.(status := status)
  }

  /** The batch status change over the whole list. */
  function ApplyStatusChange(items: seq<InventoryItem>, ids: seq<string>, status: InventoryStatus, today: Day)
    : (r: seq<InventoryItem>)
    ensures |r| == |items|
    ensures forall k :: 0 <= k < |r| ==> r[k].id == items[k].id
    ensures forall k :: 0 <= k < |r| && items[k].id !in ids ==> r[k] == items[k]
    ensures forall k :: 0 <= k < |r| && items[k].id in ids ==> r[k] == ChangeStatus(items[k], status, today)
  {
    seq(|items|, k requires 0 <= k < |items| =>
      if items[k].id in ids then ChangeStatus(items[k], status, today) else items[k])
  }

  /** Changing twice to the same status on the same day is changing once. */
  lemma StatusChangeIdempotent(items: seq<InventoryItem>, ids: seq<string>, status: InventoryStatus, today: Day)
    ensures ApplyStatusChange(ApplyStatusChange(items, ids, status, today), ids, status, today)
         == ApplyStatusChange(items, ids, status, today)
  {
  }

  /** Consuming from day 100 and finishing on day 109: the start date stays
      when the item is marked consumed. */
  lemma StatusLifecycle(item: InventoryItem)
    requires item.status == InStock
    ensures var consumed := ChangeStatus(ChangeStatus(item, Consuming, 100), Consumed, 109);
      consumed.status == Consumed && consumed.startConsumeDate == Some(100) && consumed.endConsumeDate == Some(109)
      && consumed.grams == item.grams && consumed.id == item.id
  {
  }

  function NotId(id: string): InventoryItem -> bool {
    (i: InventoryItem) => i.id != id
  }

  /** The list after deleting an id: every other item, in order. */
  function WithoutItem(items: seq<InventoryItem>, id: string): (r: seq<InventoryItem>)
    ensures forall i :: i in r <==> i in items && i.id != id
    ensures |r| <= |items|
  {
    Filter(items, NotId(id))
  }

  /** Deletion keeps the order of the rest: it works piecewise on a split
      list, and on one item it keeps or drops just that item. */
  lemma WithoutItemKeepsOrder(s: seq<InventoryItem>, t: seq<InventoryItem>, x: InventoryItem, id: string)
    ensures WithoutItem(s + t, id) == WithoutItem(s, id) + WithoutItem(t, id)
    ensures WithoutItem([x], id) == if x.id != id then [x] else []
  {
    FilterAppend(s, t, NotId(id));
    assert [x][1..] == [];
  }

  class InventoryLedger {
    var inventory: seq<InventoryItem>
    var inboundRecords: seq<InboundRecord>
    var selectedIds: seq<string>
    var newItem: ItemDraft
    var isAddMode: bool

    constructor(inventory: seq<InventoryItem>, inboundRecords: seq<InboundRecord>)
      ensures this.inventory == inventory && this.inboundRecords == inboundRecords
      ensures selectedIds == [] && newItem == EmptyItemDraft && !isAddMode
    {
      this.inventory := inventory;
      this.inboundRecords := inboundRecords;
      selectedIds := [];
      newItem := EmptyItemDraft;
      isAddMode := false;
    }

    /** `handleStatusChange`: moves the listed items and clears the selection. */
    method HandleStatusChange(ids: seq<string>, status: InventoryStatus, today: Day)
      modifies this
      ensures inventory == ApplyStatusChange(old(inventory), ids, status, today)
      ensures selectedIds == []
      ensures inboundRecords == old(inboundRecords) && newItem == old(newItem) && isAddMode == old(isAddMode)
    {
      inventory := ApplyStatusChange(inventory, ids, status, today);
      selectedIds := [];
    }

    /** Deleting a stock item never touches the inbound log. */
    method DeleteItem(id: string)
      modifies this
      ensures inventory == WithoutItem(old(inventory), id)
      ensures inboundRecords == old(inboundRecords) && selectedIds == old(selectedIds)
      ensures newItem == old(newItem) && isAddMode == old(isAddMode)
    {
      inventory := WithoutItem(inventory, id);
    }

    /** `saveNewItem` in module `m`: an accepted form appends one item and
        puts one matching inbound record at the head of the log; a form
        without a name or amount changes nothing. */
    method SaveNewItem(m: InventoryModule, today: Day, itemId: string, recordId: string) returns (saved: bool)
      modifies this
      ensures saved <==> DraftAccepted(old(newItem))
      ensures !saved ==> inventory == old(inventory) && inboundRecords == old(inboundRecords)
                         && newItem == old(newItem) && isAddMode == old(isAddMode)
      ensures saved ==>
        var item := NewItem(old(newItem), m, today, itemId);
        && inventory == old(inventory) + [item]
        && inboundRecords == [DirectRecord(item, recordId)] + old(inboundRecords)
        && newItem == EmptyItemDraft && !isAddMode
      ensures selectedIds == old(selectedIds)
    {
      if !DraftAccepted(newItem) {
        return false;
      }
      var item := NewItem(newItem, m, today, itemId);
      inventory := inventory + [item];
      inboundRecords := [DirectRecord(item, recordId)] + inboundRecords;
      isAddMode := false;
      newItem := EmptyItemDraft;
      saved := true;
    }
  }
}
