/** The cat roster: the age shown on each card, and opening, saving and
    deleting cat profiles. */
module CatManager {
  import opened Util
  import opened Types
  import opened Constants

  /** An age as the card shows it, `${years}y ${months}m`. */
  datatype Age = Age(years: int, months: int)

  /** The card's age as the code computes it: calendar year and month
      differences, borrowing a year only when the month difference is
      negative, or zero with today's day before the birth day. A month
      difference that is positive with the day not yet reached is left
      unadjusted. */
  function CalculateAge(birth: Date, today: Date): (a: Age)
    ensures a.years * 12 + a.months == (today.year - birth.year) * 12 + (today.month - birth.month)
    ensures ValidMonth(birth) && ValidMonth(today) ==> 0 <= a.months <= 12
    ensures ValidMonth(birth) && ValidMonth(today) ==>
      (a.months == 12 <==> today.month == birth.month && today.day < birth.day)
  {
    var years := today.year - birth.year;
    var months := today.month - birth.month;
    if months < 0 || (months == 0 && today.day < birth.day) then Age(years - 1, months + 12)
    else Age(years, months)
  }

  /** The shown age can disagree with the months actually completed: one day
      before the first birthday it reads "0y 12m" where 11 whole months have
      passed, and one day before the 13-month mark it reads "1y 1m" where
      only 12 have passed. */
  lemma CalculateAgeOverstates()
    ensures CalculateAge(Date(2023, 6, 16), Date(2024, 6, 15)) == Age(0, 12)
    ensures CompletedMonths(Date(2023, 6, 16), Date(2024, 6, 15)) == 11
    ensures CalculateAge(Date(2023, 5, 16), Date(2024, 6, 15)) == Age(1, 1)
    ensures CompletedMonths(Date(2023, 5, 16), Date(2024, 6, 15)) == 12
  {
  }

  /** The age in whole completed months, split into years and months; this
      is the age the life-stage rule already uses. */
  function CalculateAgeCorrected(birth: Date, today: Date): (a: Age)
    ensures 0 <= a.months < 12
    ensures a.years * 12 + a.months == CompletedMonths(birth, today)
    ensures a.years >= 1 <==> GetLifeStage(birth, today) == Adult
  {
    var m := CompletedMonths(birth, today);
    Age(m / 12, m % 12)
  }

  /** The corrected age agrees with the code's age whenever the code does
      not fall into the unadjusted-day case. */
  lemma CorrectedAgreesOnDayReached(birth: Date, today: Date)
    requires ValidMonth(birth) && ValidMonth(today)
    requires today.day >= birth.day
    ensures CalculateAgeCorrected(birth, today) == CalculateAge(birth, today)
  {
    var a := CalculateAge(birth, today);
    var c := CalculateAgeCorrected(birth, today);
    assert a.years * 12 + a.months == c.years * 12 + c.months;
    assert 0 <= a.months < 12;
  }

  /** Saving an edited profile: the cat with the form's id is replaced, all
      others stay where they are. */
  function ReplaceById(cats: seq<Cat>, c: Cat): (r: seq<Cat>)
    ensures |r| == |cats|
    ensures forall k :: 0 <= k < |r| ==> r[k].id == cats[k].id
    ensures forall k :: 0 <= k < |r| && cats[k].id == c.id ==> r[k] == c
    ensures forall k :: 0 <= k < |r| && cats[k].id != c.id ==> r[k] == cats[k]
  {
    seq(|cats|, k requires 0 <= k < |cats| => if cats[k].id == c.id then c else cats[k])
  }

  /** Saving the same form twice is saving it once. */
  lemma ReplaceByIdIdempotent(cats: seq<Cat>, c: Cat)
    ensures ReplaceById(ReplaceById(cats, c), c) == ReplaceById(cats, c)
  {
  }

  /** With no cat carrying the form's id, an edit save changes nothing. */
  lemma ReplaceMissingId(cats: seq<Cat>, c: Cat)
    requires forall k :: 0 <= k < |cats| ==> cats[k].id != c.id
    ensures ReplaceById(cats, c) == cats
  {
  }

  function NotCat(id: string): Cat -> bool {
    (c: Cat) => c.id != id
  }

  /** Deleting a profile keeps every cat with another id, in order. */
  function RemoveById(cats: seq<Cat>, id: string): (r: seq<Cat>)
    ensures forall c :: c in r <==> c in cats && c.id != id
    ensures |r| <= |cats|
  {
    Filter(cats, NotCat(id))
  }

  /** Deletion keeps the order of the others: it works piecewise on a
      split list, and on one cat it keeps or drops just that cat. */
  lemma RemoveByIdKeepsOrder(s: seq<Cat>, t: seq<Cat>, c: Cat, id: string)
    ensures RemoveById(s + t, id) == RemoveById(s, id) + RemoveById(t, id)
    ensures RemoveById([c], id) == if c.id != id then [c] else []
  {
    FilterAppend(s, t, NotCat(id));
    assert [c][1..] == [];
  }

  class CatRoster {
    var cats: seq<Cat>
    var formData: Cat
    var isEditing: bool
    var isModalOpen: bool
    /** The date the application was loaded, the blank form's birth date. */
    const loadDate: Date

    constructor(cats: seq<Cat>, loadDate: Date)
      ensures this.cats == cats && this.loadDate == loadDate
      ensures formData == InitialCat(loadDate) && !isEditing && !isModalOpen
    {
      this.cats := cats;
      this.loadDate := loadDate;
      formData := InitialCat(loadDate);
      isEditing := false;
      isModalOpen := false;
    }

    /** `handleOpenModal`: an existing cat is loaded for editing; otherwise
        the blank profile gets a fresh id. The modal opens either way. */
    method HandleOpenModal(cat: Option<Cat>, freshId: string)
      modifies this
      ensures cat.Some? ==> formData == cat.value && isEditing
      ensures cat.None? ==> formData == InitialCat(loadDate).(id := freshId) && !isEditing
      ensures isModalOpen && cats == old(cats)
    {
      if cat.Some? {
        formData := cat.value;
        isEditing := true;
      } else {
        formData := InitialCat(loadDate).(id := freshId);
        isEditing := false;
      }
      isModalOpen := true;
    }

    /** `handleSave`: a form without a name changes nothing; otherwise an
        edit replaces the cat with the form's id, a new cat is appended, and
        the modal closes. */
    method HandleSave()
      modifies this
      ensures old(formData.name) == "" ==> cats == old(cats) && isModalOpen == old(isModalOpen)
      ensures old(formData.name) != "" ==>
        && cats == (if old(isEditing) then ReplaceById(old(cats), old(formData)) else old(cats) + [old(formData)])
        && !isModalOpen
      ensures formData == old(formData) && isEditing == old(isEditing)
    {
      if formData.name == "" {
        return;
      }
      if isEditing {
        cats := ReplaceById(cats, formData);
      } else {
        cats := cats + [formData];
      }
      isModalOpen := false;
    }

    /** `handleDelete` once confirmed. */
    method HandleDelete(id: string)
      modifies this
      ensures cats == RemoveById(old(cats), id)
      ensures formData == old(formData) && isEditing == old(isEditing) && isModalOpen == old(isModalOpen)
    {
      cats := RemoveById(cats, id);
    }
  }
}
