/** The purchase plan: the arrival view sorted by module and expected date,
    batch confirmation of arrived purchases, the per-module detail totals
    with their days of supply, and the add and delete handlers. */
module PurchaseManager {
  import opened Util
  import opened Types
  import Inventory = InventoryManager

  /** The keys this screen asks consumption for: the three module groups, or
      a single category, which the reduce does not handle. */
  datatype PurchaseKey = MuscleGroup | OrganGroup | BoneGroup | SingleCategory(category: MeatCategory)

  /** One step of the consumption reduce. A group key adds the cat's share
      to the running total; any other key makes the callback return 0, which
      discards everything accumulated so far. */
  function ReduceStep(acc: real, cat: Cat, key: PurchaseKey): real {
    var r := cat.dietRatios;
    match key
    case MuscleGroup => acc + cat.DailyFood() * ((r.redMeatPercent + r.whiteMeatPercent) / 100.0)
    case OrganGroup => acc + cat.DailyFood() * ((r.heartPercent + r.organPercent) / 100.0)
    case BoneGroup => acc + cat.DailyFood() * (r.bonePercent / 100.0)
    case SingleCategory(_) => 0.0
  }

  /** `cats.reduce(step, 0)`: a left fold over the cats in order. */
  function GetDailyConsumption(cats: seq<Cat>, key: PurchaseKey): (daily: real)
    ensures cats == [] || key.SingleCategory? ==> daily == 0.0
    decreases |cats|
  {
    if cats == [] then 0.0
    else ReduceStep(GetDailyConsumption(cats[..|cats| - 1], key), cats[|cats| - 1], key)
  }

  /** The inventory screen's key for the same group. */
  function InventoryKey(key: PurchaseKey): Inventory.ConsumptionKey
    requires !key.SingleCategory?
  {
    match key
    case MuscleGroup => Inventory.Muscle
    case OrganGroup => Inventory.OrganGroup
    case BoneGroup => Inventory.Category(Bone)
  }

  /** For the three group keys both screens compute the same consumption. */
  lemma {:induction false} AgreesWithInventory(cats: seq<Cat>, key: PurchaseKey)
    requires !key.SingleCategory?
    ensures GetDailyConsumption(cats, key) == Inventory.GetDailyConsumption(cats, InventoryKey(key))
    decreases |cats|
  {
    if cats == [] {
    } else {
      var init := cats[..|cats| - 1];
      var last := cats[|cats| - 1];
      AgreesWithInventory(init, key);
      Inventory.ConsumptionAppend(init, last, InventoryKey(key));
      StepAddsCatConsumption(GetDailyConsumption(init, key), last, key);
      assert init + [last] == cats;
    }
  }

  lemma StepAddsCatConsumption(acc: real, cat: Cat, key: PurchaseKey)
    requires !key.SingleCategory?
    ensures ReduceStep(acc, cat, key) == acc + Inventory.CatConsumption(cat, InventoryKey(key))
  {
  }

  /** Days of supply on this screen: 999 when nothing is eaten, otherwise
      the quotient to one decimal. */
  function CalculateDays(grams: real, daily: real): (days: real)
    ensures daily == 0.0 ==> days == 999.0
    ensures daily != 0.0 && grams / daily >= 0.0 ==> days - 0.05 <= grams / daily < days + 0.05
    ensures daily != 0.0 && grams / daily < 0.0 ==> days - 0.05 < grams / daily <= days + 0.05
    ensures (10.0 * days).Floor as real == 10.0 * days
  {
    if daily == 0.0 then 999.0 else Round1(grams / daily)
  }

  /** The arrival list's comparison: by module, in the collation order that
      `rank` stands for, then by expected date. */
  predicate ArrivesNoLater(a: PurchaseItem, b: PurchaseItem, rank: InventoryModule -> int) {
    rank(a.stockModule) < rank(b.stockModule)
    || (rank(a.stockModule) == rank(b.stockModule) && a.expectedDate <= b.expectedDate)
  }

  predicate ArrivalSorted(s: seq<PurchaseItem>, rank: InventoryModule -> int) {
    forall i, j :: 0 <= i < j < |s| ==> ArrivesNoLater(s[i], s[j], rank)
  }

  /** Places `x` before the first element it does not come after, so that it
      stays ahead of the elements with an equal key. */
  function InsertByArrival(x: PurchaseItem, s: seq<PurchaseItem>, rank: InventoryModule -> int)
    : (r: seq<PurchaseItem>)
    ensures multiset(r) == multiset(s) + multiset{x}
    ensures |r| == |s| + 1
  {
    if s == [] then [x]
    else if ArrivesNoLater(x, s[0], rank) then [x] + s
    else
      assert s == [s[0]] + s[1..];
      [s[0]] + InsertByArrival(x, s[1..], rank)
  }

  lemma {:induction false} InsertKeepsSorted(x: PurchaseItem, s: seq<PurchaseItem>, rank: InventoryModule -> int)
    requires ArrivalSorted(s, rank)
    ensures ArrivalSorted(InsertByArrival(x, s, rank), rank)
  {
    if s == [] {
    } else if ArrivesNoLater(x, s[0], rank) {
      var r := [x] + s;
      forall i, j | 0 <= i < j < |r| ensures ArrivesNoLater(r[i], r[j], rank) {
        if i == 0 && j > 1 {
          assert ArrivesNoLater(s[0], s[j - 1], rank);
        }
      }
    } else {
      var t := InsertByArrival(x, s[1..], rank);
      InsertKeepsSorted(x, s[1..], rank);
      HeadPrecedesInsertion(x, s, rank);
      var r := [s[0]] + t;
      forall i, j | 0 <= i < j < |r| ensures ArrivesNoLater(r[i], r[j], rank) {
        if i == 0 {
          assert r[j] == t[j - 1];
          assert r[j] in t;
        } else {
          assert r[i] == t[i - 1] && r[j] == t[j - 1];
        }
      }
    }
  }

  /** When `x` goes after the head of a sorted plan, the head comes no later
      than anything in the rest with `x` inserted. */
  lemma HeadPrecedesInsertion(x: PurchaseItem, s: seq<PurchaseItem>, rank: InventoryModule -> int)
    requires s != [] && ArrivalSorted(s, rank) && !ArrivesNoLater(x, s[0], rank)
    ensures forall y :: y in InsertByArrival(x, s[1..], rank) ==> ArrivesNoLater(s[0], y, rank)
  {
    var t := InsertByArrival(x, s[1..], rank);
    forall y | y in t ensures ArrivesNoLater(s[0], y, rank) {
      assert y in multiset(t);
      if y != x {
        assert y in multiset(s[1..]);
        var k :| 0 <= k < |s[1..]| && s[1..][k] == y;
        assert s[k + 1] == y;
      }
    }
  }

  /** The arrival view: a sorted copy of the plan holding exactly the same
      purchases; the plan itself keeps its order. */
  function ArrivalOrder(purchases: seq<PurchaseItem>, rank: InventoryModule -> int): (r: seq<PurchaseItem>)
    ensures multiset(r) == multiset(purchases)
    ensures ArrivalSorted(r, rank)
  {
    if purchases == [] then []
    else
      var rest := ArrivalOrder(purchases[1..], rank);
      InsertKeepsSorted(purchases[0], rest, rank);
      assert purchases == [purchases[0]] + purchases[1..];
      InsertByArrival(purchases[0], rest, rank)
  }

  function PurchaseGrams(p: PurchaseItem): real {
    p.grams
  }

  function InPurchaseModule(m: InventoryModule): PurchaseItem -> bool {
    (p: PurchaseItem) => p.stockModule == m
  }

  function OfCategory(c: MeatCategory): PurchaseItem -> bool {
    (p: PurchaseItem) => p.category == c
  }

  function TotalGrams(items: seq<PurchaseItem>): (total: real)
    ensures (forall i :: 0 <= i < |items| ==> items[i].grams >= 0.0) ==> total >= 0.0
    ensures |items| == 1 ==> total == items[0].grams
  {
    if |items| == 1 then
      assert items[1..] == [];
      assert Sum(items[1..], PurchaseGrams) == 0.0;
      assert Sum(items, PurchaseGrams) == PurchaseGrams(items[0]) + Sum(items[1..], PurchaseGrams);
      Sum(items, PurchaseGrams)
    else
      SumNonNegative(items, PurchaseGrams);
      Sum(items, PurchaseGrams)
  }

  function CategoryGrams(items: seq<PurchaseItem>, c: MeatCategory): real {
    Sum(Filter(items, OfCategory(c)), PurchaseGrams)
  }

  /** The consumption key of a module's detail tab. */
  function ModuleKey(m: InventoryModule): PurchaseKey {
    match m
    case MeatModule => MuscleGroup
    case OrganModule => OrganGroup
    case BoneModule => BoneGroup
  }

  /** A detail tab's stats bar: the category breakdown (red and white for
      muscle meat, heart and other organs for offal, none for bone), the
      module total, the module's daily consumption and its days of supply. */
  datatype DetailStats = DetailStats(breakdown: seq<(MeatCategory, real)>, totalGrams: real, daily: real, days: real)

  function Details(purchases: seq<PurchaseItem>, cats: seq<Cat>, m: InventoryModule): (d: DetailStats)
    ensures d.totalGrams == TotalGrams(Filter(purchases, InPurchaseModule(m)))
    ensures forall e :: e in d.breakdown ==> e.1 == CategoryGrams(Filter(purchases, InPurchaseModule(m)), e.0)
    ensures m == MeatModule ==> |d.breakdown| == 2 && d.breakdown[0].0 == Red && d.breakdown[1].0 == White
    ensures m == OrganModule ==> |d.breakdown| == 2 && d.breakdown[0].0 == Heart && d.breakdown[1].0 == Organ
    ensures m == BoneModule ==> d.breakdown == []
    ensures d.daily == GetDailyConsumption(cats, ModuleKey(m))
    ensures d.days == CalculateDays(d.totalGrams, d.daily)
  {
    var items := Filter(purchases, InPurchaseModule(m));
    var total := TotalGrams(items);
    var daily := GetDailyConsumption(cats, ModuleKey(m));
    var breakdown :=
      match m
      case MeatModule => [(Red, CategoryGrams(items, Red)), (White, CategoryGrams(items, White))]
      case OrganModule => [(Heart, CategoryGrams(items, Heart)), (Organ, CategoryGrams(items, Organ))]
      case BoneModule => [];
    DetailStats(breakdown, total, daily, CalculateDays(total, daily))
  }

  /** Every gram of a list is counted under exactly one category. */
  lemma {:induction false} TotalSplitsByCategory(items: seq<PurchaseItem>)
    ensures TotalGrams(items) == CategoryGrams(items, Red) + CategoryGrams(items, White)
      + CategoryGrams(items, Heart) + CategoryGrams(items, Organ) + CategoryGrams(items, Bone)
  {
    if items != [] {
      TotalSplitsByCategory(items[1..]);
      var x := items[0];
      assert items == [x] + items[1..];
      SumFilterCons(x, items[1..], OfCategory(Red), PurchaseGrams);
      SumFilterCons(x, items[1..], OfCategory(White), PurchaseGrams);
      SumFilterCons(x, items[1..], OfCategory(Heart), PurchaseGrams);
      SumFilterCons(x, items[1..], OfCategory(Organ), PurchaseGrams);
      SumFilterCons(x, items[1..], OfCategory(Bone), PurchaseGrams);
    }
  }

  lemma NoneOfCategory(items: seq<PurchaseItem>, c: MeatCategory)
    requires forall i :: 0 <= i < |items| ==> items[i].category != c
    ensures CategoryGrams(items, c) == 0.0
  {
  }

  /** When a muscle-meat tab holds only red and white purchases (as the add
      form produces them), its breakdown adds up to its total; likewise heart
      and other organs in the offal tab. */
  lemma BreakdownAddsUp(purchases: seq<PurchaseItem>, cats: seq<Cat>, m: InventoryModule)
    requires m != BoneModule
    requires forall p :: p in purchases && p.stockModule == m ==>
      if m == MeatModule then p.category == Red || p.category == White
      else p.category == Heart || p.category == Organ
    ensures var d := Details(purchases, cats, m);
      |d.breakdown| == 2 && d.breakdown[0].1 + d.breakdown[1].1 == d.totalGrams
  {
    var items := Filter(purchases, InPurchaseModule(m));
    TotalSplitsByCategory(items);
    assert forall i :: 0 <= i < |items| ==> items[i] in items;
    if m == MeatModule {
      NoneOfCategory(items, Heart);
      NoneOfCategory(items, Organ);
      NoneOfCategory(items, Bone);
    } else {
      NoneOfCategory(items, Red);
      NoneOfCategory(items, White);
      NoneOfCategory(items, Bone);
    }
  }

  /** The add form of the detail tab; absent fields are `None`. */
  datatype PurchaseDraft = PurchaseDraft(
    name: Option<string>,
    grams: Option<real>,
    category: Option<MeatCategory>,
    expectedDate: Option<Day>)

  /** The form as it is reset after every addition. */
  const EmptyPurchaseDraft: PurchaseDraft := PurchaseDraft(None, Some(1000.0), None, None)

  /** Adding needs a non-empty name and a non-zero amount. */
  predicate DraftAccepted(d: PurchaseDraft) {
    d.name.Some? && d.name.value != "" && d.grams.Some? && d.grams.value != 0.0
  }

  /** The purchase an accepted form creates in module `m`: the category
      defaults to bone in the bone module and to red elsewhere, the expected
      date to `today`. */
  function NewPurchase(d: PurchaseDraft, m: InventoryModule, today: Day, id: string): (p: PurchaseItem)
    requires DraftAccepted(d)
    ensures p.id == id && p.stockModule == m && p.name == d.name.value && p.grams == d.grams.value
    ensures d.category.None? ==> p.category == Inventory.DefaultCategory(m)
    ensures d.category.Some? ==> p.category == d.category.value
    ensures p.expectedDate == OrElse(d.expectedDate, today)
  {
    PurchaseItem(id, m, OrElse(d.category, Inventory.DefaultCategory(m)), d.name.value,
      d.grams.value, OrElse(d.expectedDate, today))
  }

  function Selected(ids: seq<string>): PurchaseItem -> bool {
    (p: PurchaseItem) => p.id in ids
  }

  function Unselected(ids: seq<string>): PurchaseItem -> bool {
    (p: PurchaseItem) => p.id !in ids
  }

  /** A batch arrival splits the plan: the confirmed purchases and those left
      over hold every purchase exactly once, and nothing selected is left. */
  lemma ArrivalSplitsPlan(purchases: seq<PurchaseItem>, ids: seq<string>)
    ensures multiset(Filter(purchases, Selected(ids))) + multiset(Filter(purchases, Unselected(ids)))
         == multiset(purchases)
    ensures |Filter(purchases, Selected(ids))| + |Filter(purchases, Unselected(ids))| == |purchases|
    ensures forall p :: p in Filter(purchases, Unselected(ids)) ==> p.id !in ids
  {
    FilterPartition(purchases, Selected(ids), Unselected(ids));
  }

  function NotPurchase(id: string): PurchaseItem -> bool {
    (p: PurchaseItem) => p.id != id
  }

  class PurchasePlanner {
    var purchases: seq<PurchaseItem>
    var selectedIds: seq<string>
    var newItem: PurchaseDraft
    var detailModule: InventoryModule

    constructor(purchases: seq<PurchaseItem>)
      ensures this.purchases == purchases && selectedIds == []
      ensures newItem == EmptyPurchaseDraft && detailModule == MeatModule
    {
      this.purchases := purchases;
      selectedIds := [];
      newItem := EmptyPurchaseDraft;
      detailModule := MeatModule;
    }

    /** `handleBatchArrival` once confirmed: with nothing selected it does
        nothing; otherwise it hands over the selected purchases in plan
        order, keeps only the unselected ones and clears the selection. */
    method HandleBatchArrival() returns (arrived: Option<seq<PurchaseItem>>)
      modifies this
      ensures old(selectedIds) == [] ==> arrived == None && purchases == old(purchases) && selectedIds == []
      ensures old(selectedIds) != [] ==>
        && arrived == Some(Filter(old(purchases), Selected(old(selectedIds))))
        && purchases == Filter(old(purchases), Unselected(old(selectedIds)))
        && selectedIds == []
      ensures arrived.Some? ==> |arrived.value| + |purchases| == |old(purchases)|
      ensures newItem == old(newItem) && detailModule == old(detailModule)
    {
      if selectedIds == [] {
        return None;
      }
      ArrivalSplitsPlan(purchases, selectedIds);
      arrived := Some(Filter(purchases, Selected(selectedIds)));
      purchases := Filter(purchases, Unselected(selectedIds));
      selectedIds := [];
    }

    /** `handleAdd`: an accepted form appends one purchase to the current
        module's plan and resets the form; otherwise nothing changes. */
    method HandleAdd(today: Day, freshId: string) returns (added: bool)
      modifies this
      ensures added <==> DraftAccepted(old(newItem))
      ensures added ==> purchases == old(purchases) + [NewPurchase(old(newItem), detailModule, today, freshId)]
                        && newItem == EmptyPurchaseDraft
      ensures !added ==> purchases == old(purchases) && newItem == old(newItem)
      ensures selectedIds == old(selectedIds) && detailModule == old(detailModule)
    {
      if !DraftAccepted(newItem) {
        return false;
      }
      purchases := purchases + [NewPurchase(newItem, detailModule, today, freshId)];
      newItem := EmptyPurchaseDraft;
      added := true;
    }

    /** Deleting a purchase once confirmed keeps every other one in order. */
    method DeletePurchase(id: string)
      modifies this
      ensures purchases == Filter(old(purchases), NotPurchase(id))
      ensures forall p :: p in purchases <==> p in old(purchases) && p.id != id
      ensures selectedIds == old(selectedIds) && newItem == old(newItem) && detailModule == old(detailModule)
    {
      purchases := Filter(purchases, NotPurchase(id));
    }
  }
}
