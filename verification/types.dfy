/** The records of the planner: cats with their diet ratios, the meat
    catalog, stocked inventory items, the inbound log and planned purchases.
    Enumerations become datatypes; optional fields become `Option`s. */
module Types {
  import opened Util

  datatype Gender = Male | Female

  /** The five food categories of a raw diet. */
  datatype MeatCategory = Red | White | Heart | Organ | Bone

  datatype InventoryStatus = InStock | Consuming | Consumed

  /** The three stock modules: muscle meat, offal and bone. */
  datatype InventoryModule = MeatModule | OrganModule | BoneModule

  datatype InboundType = Direct | FromPurchase

  datatype AdjustType = Added | Modified

  /** A calendar date as the local year, month and day-of-month getters see it. */
  datatype Date = Date(year: int, month: int, day: int)

  /** A 'YYYY-MM-DD' stamp in the ledger, as a number of whole days since a
      fixed epoch; later dates have larger numbers. */
  type Day = int

  datatype MeatType = MeatType(id: string, name: string, category: MeatCategory, isSystem: bool)

  datatype DietRatios = DietRatios(
    dailyIntakePercent: real,  // percent of body weight fed per day
    redMeatPercent: real,
    whiteMeatPercent: real,
    heartPercent: real,
    organPercent: real,        // organs other than heart
    bonePercent: real)
  {
    /** The configured percentage of one food category. */
    function Percent(c: MeatCategory): real {
      match c
      case Red => redMeatPercent
      case White => whiteMeatPercent
      case Heart => heartPercent
      case Organ => organPercent
      case Bone => bonePercent
    }

    /** The five category percentages added up; nothing forces this to be 100. */
    function TotalPercentage(): real {
      redMeatPercent + whiteMeatPercent + heartPercent + organPercent + bonePercent
    }
  }

  datatype Cat = Cat(
    id: string,
    name: string,
    birthDate: Date,
    gender: Gender,
    isNeutered: bool,
    weight: real,  // grams
    breed: string,
    image: Option<string>,
    dietRatios: DietRatios)
  {
    /** Grams of food per day before any rounding: weight times the intake
        percentage. */
    function DailyFood(): real {
      weight * (dietRatios.dailyIntakePercent / 100.0)
    }
  }

  datatype InventoryItem = InventoryItem(
    id: string,
    stockModule: InventoryModule,
    category: MeatCategory,
    name: string,
    grams: real,
    status: InventoryStatus,
    inStockDate: Day,
    startConsumeDate: Option<Day>,
    endConsumeDate: Option<Day>)

  datatype InboundRecord = InboundRecord(
    id: string,
    inboundType: InboundType,
    stockModule: InventoryModule,
    category: MeatCategory,
    name: string,
    grams: real,
    date: Day,
    adjustType: AdjustType)

  datatype PurchaseItem = PurchaseItem(
    id: string,
    stockModule: InventoryModule,
    category: MeatCategory,
    name: string,
    grams: real,
    expectedDate: Day)
}
