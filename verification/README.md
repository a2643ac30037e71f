# Cat raw-feeding planner, modelled in Dafny

This project models the calculation and list-update core of a cat
raw-feeding planner, a browser application. Its owners keep cat profiles
with diet ratios, a meat catalog, a meat/offal/bone inventory with an
inbound log, and a purchase plan. From these the planner works out:

- daily and per-meal food amounts and the grams of each food category;
- a fixed seven-rule supplement table, which depends on the cat's life stage;
- a 7-day bag packaging plan with 30-day supplement totals;
- days of supply, with a suggestion to top up to whole weeks;
- the expected end date of each item being consumed.

One Dafny module corresponds to each source file:

| module | source | form |
|---|---|---|
| `Util` | JavaScript built-ins (`filter`, `reduce`, `Math.round`, `toFixed`, `%`, `Math.ceil`) | functions and lemmas |
| `Types` | `types.ts` | datatypes |
| `Constants` | `constants.ts` | constants, functions, lemmas |
| `DietCalculator` | `components/DietCalculator.tsx` | functions, lemmas |
| `PackagingPlan` | `components/PackagingPlan.tsx` | functions, lemmas |
| `InventoryManager` | `components/InventoryManager.tsx` | functions, lemmas, class `InventoryLedger` |
| `PurchaseManager` | `components/PurchaseManager.tsx` | functions, lemmas, class `PurchasePlanner` |
| `CatManager` | `components/CatManager.tsx` | functions, lemmas, class `CatRoster` |
| `MeatManager` | `components/MeatManager.tsx` | functions, lemmas, class `MeatCatalog` |

Conventions of the model:

- **Numbers.**
  - Numbers are `real`.
  - `Math.round(x)` is ⌊x + ½⌋.
  - `Number(x.toFixed(1))` is ⌊10x + ½⌋ / 10 for x ≥ 0 and −⌊−10x + ½⌋ / 10 for x < 0: `toFixed` rounds a half away from zero, so −0.25 becomes −0.3.
  - `%` is JavaScript's remainder, which truncates toward zero.
  - A NaN result is `None`: the 0/0 bag count when a cat's daily food is zero, and `total % 0` when nobody eats from a module.
- **Dates.**
  - A birth date is a (year, month, day) triple.
  - A ledger date (`YYYY-MM-DD`) is an integer day number.
  - "Now" is a real instant measured in days on the same scale.
  - "Today" and "now" are parameters, and so are fresh ids.
- **State.**
  - State that a component changes (the lists, the selection, the form fields) is a field of a class.
  - Each handler is a method. Its `ensures` gives every field's new value in terms of the old state, through pure functions, and the lemmas beside those functions state what the source promises.
  - A form's optional fields are `Option`s; Dafny's public fields stand for the form inputs.
  - A handler whose action waits for a confirmation dialog is modelled as if confirmed.

Two behaviours of the code that the model keeps as they are:

- Moving an item to "consuming" always overwrites its start date with today (`components/InventoryManager.tsx:201`), even when a start date is already set.
- Supplements come only from the fixed seven-rule table (`components/DietCalculator.tsx:43-86`). Cat profiles hold no per-cat supplement list.

## Model

| member | source | states |
|---|---|---|
| `Constants.InitialCat` | constants.ts:29-38 | the blank profile has empty id and name, 4000 g weight, the default ratios, and the load date as birth date |
| `Constants.DefaultMeatsShape` | constants.ts:6-18 | the built-in catalog has 11 entries with distinct ids: 4 red then 7 white, all built-in |
| `Constants.DefaultDietRatiosShape` | constants.ts:20-27 | the default category percentages add up to 100 and the intake is 3% |
| `Constants.GetAgeLabel` | constants.ts:55-58 | the label is 成猫 exactly when the life stage is adult, otherwise 幼猫 |
| `Constants.CompletedMonths` | constants.ts:48-51 | for valid months, the completed-month count is non-negative exactly when today is on or after the birth date |
| `Constants.GetLifeStage` | constants.ts:40-53 | for valid months, a cat is adult exactly from its first birthday (the same month and day one year later) on |
| `Constants.EarlierBirthStaysAdult` | constants.ts:48-52 | if a birth date gives adult, every earlier birth date gives adult on the same day |
| `Constants.LifeStageExamples` | constants.ts:46-52 | born 2023-01-01, adult on 2024-01-01; on 2024-06-15, born 2023-06-15 is adult and born 2023-06-16 is a kitten |
| `DietCalculator.DailyTotal` | components/DietCalculator.tsx:26 | the daily total is the whole gram nearest to weight × intake%, and never negative when that product is not |
| `DietCalculator.PerMeal` | components/DietCalculator.tsx:27 | a meal is the whole gram nearest to a third of the daily total, exactly a third when the total divides by 3 |
| `DietCalculator.GetGrams` | components/DietCalculator.tsx:35 | category grams are the daily total times the percentage, rounded: 0% gives 0 and 100% gives the daily total |
| `DietCalculator.HandleRatioChange` | components/DietCalculator.tsx:16-24 | exactly the edited ratio takes the entered value, unclamped; every other ratio and every other cat field is unchanged |
| `DietCalculator.ShowsRatioWarning` | components/DietCalculator.tsx:28-32 | the warning shows exactly when the five percentages do not add up to 100; without it and with none negative, none exceeds 100 |
| `DietCalculator.MuscleMass` | components/DietCalculator.tsx:39-40 | the muscle mass is the red share plus the white share of the daily total, and not negative for non-negative inputs |
| `DietCalculator.SupplementTable` | components/DietCalculator.tsx:43-86 | seven doses in fixed order: eggshell muscle/100·0.6 g, B-complex ½, vitamin E 1/7, taurine muscle/1000·0.5 g, fish oil 2/7; all doses are non-negative for non-negative muscle mass |
| `DietCalculator.KittenDoses` | components/DietCalculator.tsx:62-73 | a kitten's iodine dose is twice the adult's, its manganese dose (muscle/6000) is at least the adult's (muscle/9000), and the other five rules ignore the stage |
| `DietCalculator.DietSupplements` | components/DietCalculator.tsx:39-86 | the seven rules applied to the muscle share of the rounded daily total at the cat's life stage today; for valid dates and a positive muscle mass, the iodine dose is the adult muscle/700 exactly from the first birthday on |
| `DietCalculator.DoseDisplay` | components/DietCalculator.tsx:226 | a dose is shown as "< 0.01" exactly when it is below 0.01, otherwise as a value on the hundredths grid within half a hundredth of the dose |
| `DietCalculator.RatioExample` | components/DietCalculator.tsx:26-40 | 4000 g at 3% gives 120 g a day and 40 g a meal; 40% is 48 g; the default ratios raise no warning; muscle mass is 96 g |
| `DietCalculator.DailyTotalMonotone` | components/DietCalculator.tsx:26 | a heavier cat at the same intake never gets a smaller rounded daily total |
| `DietCalculator.DailyTotalMonotoneInIntake` | components/DietCalculator.tsx:26 | a higher intake percentage at the same non-negative weight never gives a smaller rounded daily total |
| `DietCalculator.GramsSumNearDailyTotal` | components/DietCalculator.tsx:29-35 | when the percentages add up to 100, the five rounded category amounts add up to the daily total ± 2 g |
| `PackagingPlan.MealSize` | components/PackagingPlan.tsx:18-19 | three bags of the meal size hold exactly the unrounded daily food |
| `PackagingPlan.WeeklyTotal` | components/PackagingPlan.tsx:21-23 | the week's food is exactly 21 bags of the meal size |
| `PackagingPlan.GetBags` | components/PackagingPlan.tsx:26-33 | the week's grams are the rounded 7·daily·p/100; zero daily food gives 0 g and a NaN bag count |
| `PackagingPlan.BagsAreShareOfMeals` | components/PackagingPlan.tsx:18-33 | for non-zero daily food the bag count is round1(21·p/100), whatever the weight |
| `PackagingPlan.Categories` | components/PackagingPlan.tsx:35-41 | at most five rows, each with a positive percentage equal to its category's setting, in the order red, white, heart, organ, bone with no category twice |
| `PackagingPlan.CategoriesKept` | components/PackagingPlan.tsx:35-41 | a category is a row exactly when its percentage is positive, and each row carries its own percentage |
| `PackagingPlan.UnroundedBagsSum` | components/PackagingPlan.tsx:23-41 | the unrounded bag counts of the rows add up to 21·Σpct/100, which is the 21 weekly meals when the percentages add up to 100 |
| `PackagingPlan.DisplayedBagTotal` | components/PackagingPlan.tsx:140 | the footer total is NaN exactly when there are rows and no daily food, 0 with no rows, and otherwise the rows' rounded bag counts added and rounded to one decimal |
| `PackagingPlan.BagTotalNearMeals` | components/PackagingPlan.tsx:140 | for any cat that eats and has no negative percentage, the footer lies within 0.05·(rows + 1) of 21·Σ/100 bags, so within 0.3 of 21 when the percentages add up to 100 |
| `PackagingPlan.BagTotalDrift` | components/PackagingPlan.tsx:140 | for a 4000 g cat on the default ratios the red row is 336 g in 8.4 bags, and the footer shows 21.1 bags, not 21 |
| `PackagingPlan.PlanSupplements` | components/PackagingPlan.tsx:44-84 | the plan applies the ratio screen's seven rules, in the same order and with the same units, to the muscle share of the unrounded daily food |
| `PackagingPlan.PlanMuscleNearDiet` | components/PackagingPlan.tsx:44-46 | the plan's muscle mass is within half a gram times the muscle share of the ratio screen's, which starts from the rounded total |
| `PackagingPlan.PlanSupplementsDifferFromDiet` | components/PackagingPlan.tsx:44-46 | a 4123 g cat at 3% gets a different eggshell dose on the plan than on the ratio screen |
| `PackagingPlan.PlanSupplementsMatchDiet` | components/PackagingPlan.tsx:43-84 | the plan's supplement table equals the ratio screen's whenever the daily food is a whole number of grams |
| `PackagingPlan.GetSuppTotal` | components/PackagingPlan.tsx:86-92 | the 30-day total is shown in kilograms exactly when the unit is grams and the total reaches 1000, otherwise in its own unit |
| `InventoryManager.GetDailyConsumption` | components/InventoryManager.tsx:30-49 | no cats consume nothing; `ConsumptionAppend` states what each cat adds |
| `InventoryManager.ConsumptionNonNegative` | components/InventoryManager.tsx:30-49 | cats with non-negative weight, intake and percentages never give a negative rate, for any key |
| `InventoryManager.ConsumptionAppend` | components/InventoryManager.tsx:30-49 | adding a cat adds exactly that cat's share to the aggregate daily consumption |
| `InventoryManager.GroupsAreSumsOfCategories` | components/InventoryManager.tsx:34-46 | the muscle rate is red plus white, and the organ rate is heart plus other organs |
| `InventoryManager.CalculateDays` | components/InventoryManager.tsx:51-54 | zero usage gives the 999 sentinel, otherwise the days times the usage equal the grams |
| `InventoryManager.MissingForWeek` | components/InventoryManager.tsx:83-84 | defined exactly for non-zero usage (otherwise NaN); stock plus the missing grams is one whole week more than the stock's whole weeks |
| `InventoryManager.CheckSupply` | components/InventoryManager.tsx:81-102 | the stock counts as whole weeks exactly when its remainder by a week's use is within 1 g of 0 or of a week's use (never for zero usage); a top-up, the rounded missing grams, is suggested exactly when it does not and the stock lasts under 100 days |
| `InventoryManager.MultipleIffNearWholeWeeks` | components/InventoryManager.tsx:83-86 | for positive usage, the stock counts as whole weeks exactly when it lies within 1 g of k weeks' use for some whole k |
| `InventoryManager.TopUpCompletesWeeks` | components/InventoryManager.tsx:83-86 | the suggested amount is more than 0 and at most one week's use, and it completes a whole number of weeks |
| `InventoryManager.SupplyExamples` | components/InventoryManager.tsx:51-102 | 700 g at 100 g/day lasts 7 days and is a whole week; 650 g suggests 50 g; zero usage gives 999 |
| `InventoryManager.StockTotal` | components/InventoryManager.tsx:72-75 | with no negative amounts, a module's in-stock total is never negative |
| `InventoryManager.StockTotalAppend` | components/InventoryManager.tsx:72-75 | a module's stock grows by an added item's grams only when it is in stock and in that module |
| `InventoryManager.StockByCategory` | components/InventoryManager.tsx:72-75 | a module's in-stock total is the sum of its five per-category in-stock totals |
| `InventoryManager.InStockGrams` | components/InventoryManager.tsx:264-274 | with no negative amounts, a category's in-stock figure is never negative |
| `InventoryManager.ModuleStats` | components/InventoryManager.tsx:262-275 | muscle meat lists red then white, offal heart then other organs, bone only bone; each figure is the in-stock grams of its category within the module |
| `InventoryManager.ModuleStatsMatchSummary` | components/InventoryManager.tsx:264-275 | when a module holds only its own categories, its stats-bar figures add up to the summary's stock total |
| `InventoryManager.ModuleList` | components/InventoryManager.tsx:255-260 | an item is listed exactly when its module matches, its name contains the filter text, and its status matches or the filter is 'all' |
| `InventoryManager.ItemDailyUsage` | components/InventoryManager.tsx:137-140 | a bone-module item is used at the aggregate bone rate, any other item at its own category's rate |
| `InventoryManager.AddDays` | components/InventoryManager.tsx:56-60 | a non-negative span moves the date to the last whole day not after start + span |
| `InventoryManager.Project` | components/InventoryManager.tsx:142-147 | the end day is the start moved by the days the stock lasts at the item's usage, and the days left are the ceiling of end minus now; overdue exactly when fewer than 0 days are left, low exactly when 0 to 3 are left, never both |
| `InventoryManager.EndDayBracketsStock` | components/InventoryManager.tsx:142-143 | with positive usage, the whole days from start to projected end use at most the stock, and one more day would use more |
| `InventoryManager.ConsumingProjections` | components/InventoryManager.tsx:109-147 | the watch list holds the projection of each consuming item that has a start date, in stock order |
| `InventoryManager.DaysLeftDuringToday` | components/InventoryManager.tsx:62-67 | read at any moment of a day, the days left are the whole days from that day to the projected end |
| `InventoryManager.IdleItemLastsSentinel` | components/InventoryManager.tsx:51-60 | with zero usage an item is projected to end 999 days after its start |
| `InventoryManager.NewItem` | components/InventoryManager.tsx:224-233 | a saved item takes the form's name and grams; category defaults to bone in the bone module and red elsewhere, status to in stock, stock date to today; a start date is set exactly when the status is consuming, and it is the form's start date or else today |
| `InventoryManager.DirectRecord` | components/InventoryManager.tsx:238-247 | the inbound record is a direct, newly added entry with the item's module, category, name and grams, dated on its stock date |
| `InventoryManager.ChangeStatus` | components/InventoryManager.tsx:198-205 | the item takes the new status; consuming restamps the start date, consumed stamps the end date and keeps the start date; nothing else changes |
| `InventoryManager.ApplyStatusChange` | components/InventoryManager.tsx:196-208 | length, order and ids are kept, listed items are changed, and every other item is untouched |
| `InventoryManager.StatusChangeIdempotent` | components/InventoryManager.tsx:196-208 | applying the same change twice on the same day is the same as applying it once |
| `InventoryManager.StatusLifecycle` | components/InventoryManager.tsx:198-205 | an in-stock item that starts being consumed on one day and is finished on a later day keeps its start date and gets the later day as end date |
| `InventoryManager.WithoutItem` | components/InventoryManager.tsx:217 | deleting keeps exactly the items with another id |
| `InventoryManager.WithoutItemKeepsOrder` | components/InventoryManager.tsx:217 | deleting works piecewise on a split list and keeps or drops a single item, so the rest stay in order |
| `InventoryManager.InventoryLedger.constructor` | components/InventoryManager.tsx:190-194 | the selection starts empty and the form starts at 500 g in stock, closed |
| `InventoryManager.InventoryLedger.HandleStatusChange` | components/InventoryManager.tsx:196-208 | the list becomes the batch status change, the selection is cleared, and the inbound log is untouched |
| `InventoryManager.InventoryLedger.DeleteItem` | components/InventoryManager.tsx:210-220 | the item is removed and the inbound log is untouched |
| `InventoryManager.InventoryLedger.SaveNewItem` | components/InventoryManager.tsx:222-252 | a form without a name or amount changes nothing; otherwise exactly one item is appended, its record is put at the head of the log, and the form is reset and closed |
| `PurchaseManager.AgreesWithInventory` | components/PurchaseManager.tsx:31-43 | for the muscle, organ and bone groups this screen's consumption equals the inventory screen's |
| `PurchaseManager.GetDailyConsumption` | components/PurchaseManager.tsx:31-43 | no cats consume nothing, and any key other than the three groups yields zero consumption |
| `PurchaseManager.CalculateDays` | components/PurchaseManager.tsx:45-48 | zero consumption gives 999, otherwise the quotient to within 0.05 with a half rounded away from zero, on the one-decimal grid |
| `Util.Round1Odd` | components/PurchaseManager.tsx:47 | `toFixed(1)` rounds symmetrically about zero: −0.25 gives −0.3 as 0.25 gives 0.3 |
| `PurchaseManager.InsertByArrival` | components/PurchaseManager.tsx:68 | insertion adds exactly the one purchase |
| `PurchaseManager.InsertKeepsSorted` | components/PurchaseManager.tsx:68 | inserting into a list ordered by module and expected date keeps it ordered |
| `PurchaseManager.ArrivalOrder` | components/PurchaseManager.tsx:68 | the arrival view is a permutation of the plan, ordered by module and then expected date |
| `PurchaseManager.TotalGrams` | components/PurchaseManager.tsx:152 | a total of non-negative amounts is not negative, and a single purchase's total is its grams |
| `PurchaseManager.Details` | components/PurchaseManager.tsx:147-171 | the muscle tab breaks down into red then white, the offal tab into heart then other organs, the bone tab not at all; the tab's total is the sum over the module's purchases, each subtotal sums only its category, and the days come from the group's consumption |
| `PurchaseManager.TotalSplitsByCategory` | components/PurchaseManager.tsx:152-165 | a list's total grams are the sum of its five category subtotals |
| `PurchaseManager.BreakdownAddsUp` | components/PurchaseManager.tsx:156-165 | when a tab holds only its own two categories, the two subtotals add up to its total |
| `PurchaseManager.NewPurchase` | components/PurchaseManager.tsx:121-130 | a new purchase is in the current module and takes the form's name and grams; category defaults to bone in the bone module and red elsewhere, expected date to today |
| `PurchaseManager.ArrivalSplitsPlan` | components/PurchaseManager.tsx:53-62 | the confirmed and remaining purchases together hold every purchase exactly once, and no selected id remains |
| `PurchaseManager.PurchasePlanner.constructor` | components/PurchaseManager.tsx:18-19 | the plan starts on the muscle-meat tab with nothing selected and the form at 1000 g |
| `PurchaseManager.PurchasePlanner.HandleBatchArrival` | components/PurchaseManager.tsx:51-65 | with nothing selected nothing happens; otherwise the selected purchases are handed over in plan order, the rest are kept in order, and the selection is cleared |
| `PurchaseManager.PurchasePlanner.HandleAdd` | components/PurchaseManager.tsx:121-133 | a form without a name or amount changes nothing; otherwise exactly one purchase is appended and the form is reset |
| `PurchaseManager.PurchasePlanner.DeletePurchase` | components/PurchaseManager.tsx:135-145 | exactly the purchases with another id are kept, in order |
| `CatManager.CalculateAge` | components/CatManager.tsx:17-27 | years·12 + months is the calendar month difference; months lie in 0..12, and are 12 exactly when today is in the birth month before the birth day |
| `CatManager.CalculateAgeOverstates` | components/CatManager.tsx:20-26 | the code shows "0y 12m" after 11 completed months and "1y 1m" after 12 |
| `CatManager.CalculateAgeCorrected` | components/CatManager.tsx:17-27 | months lie in 0..11, years·12 + months is the completed-month count, and years ≥ 1 exactly for an adult |
| `CatManager.CorrectedAgreesOnDayReached` | components/CatManager.tsx:20-25 | once the birth day of the month is reached, the corrected age equals the code's age |
| `CatManager.ReplaceById` | components/CatManager.tsx:44 | an edit save keeps length and ids, replaces the cats with the form's id, and leaves the others unchanged |
| `CatManager.ReplaceByIdIdempotent` | components/CatManager.tsx:44 | saving the same form twice equals saving it once |
| `CatManager.ReplaceMissingId` | components/CatManager.tsx:44 | an edit save whose id matches no cat changes nothing |
| `CatManager.RemoveById` | components/CatManager.tsx:54 | deleting keeps exactly the cats with another id |
| `CatManager.RemoveByIdKeepsOrder` | components/CatManager.tsx:54 | deleting works piecewise on a split list and keeps or drops a single cat, so the others stay in order |
| `CatManager.CatRoster.constructor` | components/CatManager.tsx:13-15 | the roster starts with the blank profile, not editing, and the modal closed |
| `CatManager.CatRoster.HandleOpenModal` | components/CatManager.tsx:29-38 | with a cat, that cat is edited; without one, the blank profile with a fresh id is added; the modal opens |
| `CatManager.CatRoster.HandleSave` | components/CatManager.tsx:40-49 | a nameless form changes nothing; otherwise an edit replaces by id, an addition appends, and the modal closes |
| `CatManager.CatRoster.HandleDelete` | components/CatManager.tsx:51-56 | the cats with that id are removed and the others are kept in order |
| `MeatManager.Trim` | components/MeatManager.tsx:20 | the trimmed name is a contiguous part of the name with only whitespace cut off on either side, and it neither starts nor ends with whitespace |
| `MeatManager.BlankIffAllWhitespace` | components/MeatManager.tsx:20 | a name trims to nothing exactly when every character is whitespace |
| `MeatManager.BlankExamples` | components/MeatManager.tsx:20 | a full-width space is blank; a name with surrounding spaces is not |
| `MeatManager.ColumnsPartitionMuscleMeats` | components/MeatManager.tsx:55-56 | the red and white columns are disjoint, and together they hold every red or white entry exactly once |
| `MeatManager.ColumnSizes` | components/MeatManager.tsx:55-56 | n red entries followed by white ones give a red column of n and a white column of the rest |
| `MeatManager.DefaultColumns` | components/MeatManager.tsx:55-56 | the built-in catalog shows 4 red and 7 white entries |
| `MeatManager.RenameById` | components/MeatManager.tsx:47 | only the entry being edited takes the new name and category; ids and built-in flags are kept, and every other entry is unchanged |
| `MeatManager.MeatCatalog.constructor` | components/MeatManager.tsx:13-17 | the forms start empty, the category at red, and nothing is being edited |
| `MeatManager.MeatCatalog.HandleAdd` | components/MeatManager.tsx:19-29 | a blank name is refused; otherwise a user entry with the untrimmed name is appended and the name field is cleared |
| `MeatManager.MeatCatalog.HandleDelete` | components/MeatManager.tsx:31-37 | exactly the entries with another id are kept, built-in ones included |
| `MeatManager.MeatCatalog.StartEdit` | components/MeatManager.tsx:39-43 | the edit fields take the entry's id, name and category |
| `MeatManager.MeatCatalog.SaveEdit` | components/MeatManager.tsx:45-49 | a blank name is refused and editing continues; otherwise the entry is renamed and editing ends |
| `MeatManager.MeatCatalog.CancelEdit` | components/MeatManager.tsx:51-53 | only the editing id is reset |

## Left out

- Rendering, tabs, the refresh counter, and the checkbox selection and module-switch controls are left out, because they are user interface. The modelled handlers read `selectedIds` and `detailModule` as fields.
- Confirmation dialogs (`window.confirm` and the confirm modal) are left out: each handler is modelled as confirmed, and a cancelled dialog changes nothing.
- Loading and saving in browser storage and the application's view routing are not part of this model. The parent's handling of confirmed arrivals is not part of it either: the model returns the arrived purchases instead.
- Random ids, clock reads and the time-zone behaviour of parsing `YYYY-MM-DD` strings are left out. Ids, "today" and "now" are parameters.
- IEEE-754 floating point and `toFixed` string formatting are left out: values are exact reals. The 30-day totals are a kilogram/unit datatype rather than a string.
- The display-only sort of the inbound log is left out.
- InventoryManager.ModuleStats: it states each figure over the in-stock items of the whole list matching module and category. The source filters the module's items first, which gives the same items.
- InventoryManager.GetDailyConsumption is a right fold, while the source's reduce is a left fold. Over the reals the two give the same sum, and the purchase screen's left fold is proved equal to it.
- InventoryManager.AddDays: `setDate` truncates the start's day of the month plus the span, and the model's day numbers do not carry the day of the month, so the model truncates the span alone. The two agree for a span that is not negative. For a negative fractional span, which a negative amount (the add form refuses only 0) produces, the model's end day can be one day later than the source's.
- PurchaseManager.ArrivalOrder is ordered by a module rank passed as a parameter, standing for the locale collation of the module names. Stability of the sort is not stated.

## Findings

| source | as written | input that shows it | evidently intended | confidence | as-written member | corrected member |
|---|---|---|---|---|---|---|
| components/CatManager.tsx:22 | a year is borrowed only when the month difference is negative, or zero with today's day before the birth day; a positive month difference is never reduced when the day has not been reached | birth 2023-06-16 and today 2024-06-15 show "0y 12m"; birth 2023-05-16 and today 2024-06-15 show "1y 1m" | "0y 11m" and "1y 0m": whole completed months, as the life-stage rule in constants.ts:48-52 counts them | not executed | `CatManager.CalculateAgeOverstates` | `CatManager.CalculateAgeCorrected` |
