/** The meat catalog screen: the red and white columns, and adding,
    renaming and deleting catalog entries. Built-in entries get no special
    protection: `isSystem` is never consulted. */
module MeatManager {
  import opened Util
  import opened Types
  import opened Constants

  /** The characters `String.prototype.trim` removes: the ECMAScript
      WhiteSpace and LineTerminator code points. */
  predicate IsJsWhitespace(c: char) {
    c == '\t' || c == '\n' || c == '\U{000B}' || c == '\U{000C}' || c == '\r' || c == ' '
    || c == '\U{00A0}' || c == '\U{1680}' || ('\U{2000}' <= c <= '\U{200A}')
    || c == '\U{2028}' || c == '\U{2029}' || c == '\U{202F}' || c == '\U{205F}'
    || c == '\U{3000}' || c == '\U{FEFF}'
  }

  /** The first index at or after `i` whose character is not whitespace,
      or `|s|`. */
  function SkipLeading(s: string, i: nat): (n: nat)
    requires i <= |s|
    ensures i <= n <= |s|
    ensures forall k :: i <= k < n ==> IsJsWhitespace(s[k])
    ensures n < |s| ==> !IsJsWhitespace(s[n])
    decreases |s| - i
  {
    if i < |s| && IsJsWhitespace(s[i]) then SkipLeading(s, i + 1) else i
  }

  /** The end of `s[lo..j]` once its trailing whitespace is dropped. */
  function SkipTrailing(s: string, lo: nat, j: nat): (n: nat)
    requires lo <= j <= |s|
    ensures lo <= n <= j
    ensures forall k :: n <= k < j ==> IsJsWhitespace(s[k])
    ensures n > lo ==> !IsJsWhitespace(s[n - 1])
    decreases j
  {
    if j > lo && IsJsWhitespace(s[j - 1]) then SkipTrailing(s, lo, j - 1) else j
  }

  /** `s.trim()`: the part of `s` left after removing whitespace, and only
      whitespace, at both ends; it neither starts nor ends with whitespace. */
  function Trim(s: string): (r: string)
    ensures |r| <= |s|
    ensures r != [] ==> !IsJsWhitespace(r[0]) && !IsJsWhitespace(r[|r| - 1])
    ensures exists a, b :: TrimmedBetween(s, a, b, r)
  {
    var a := SkipLeading(s, 0);
    var b := SkipTrailing(s, a, |s|);
    assert TrimmedBetween(s, a, b, s[a..b]);
    s[a..b]
  }

  /** `r` is `s[a..b]` and everything outside that range is whitespace. */
  predicate TrimmedBetween(s: string, a: int, b: int, r: string) {
    && 0 <= a <= b <= |s| && r == s[a..b]
    && (forall i :: 0 <= i < a ==> IsJsWhitespace(s[i]))
    && (forall i :: b <= i < |s| ==> IsJsWhitespace(s[i]))
  }

  /** A name is refused when it trims to nothing. */
  predicate IsBlank(s: string) {
    Trim(s) == ""
  }

  /** A name trims to nothing exactly when every character is whitespace. */
  lemma BlankIffAllWhitespace(s: string)
    ensures IsBlank(s) <==> forall i :: 0 <= i < |s| ==> IsJsWhitespace(s[i])
  {
  }

  /** A full-width space, which Chinese input methods produce, is blank too;
      a name with surrounding spaces is not. */
  lemma BlankExamples()
    ensures IsBlank("\U{3000}")
    ensures !IsBlank(" 鸡肉 ")
  {
    assert "\U{3000}"[1..] == "";
    assert " 鸡肉 "[1..] == "鸡肉 ";
    assert !IsJsWhitespace('鸡');
  }

  function OfMeatCategory(c: MeatCategory): MeatType -> bool {
    (m: MeatType) => m.category == c
  }

  /** The red column, in catalog order. */
  function RedMeats(meats: seq<MeatType>): seq<MeatType> {
    Filter(meats, OfMeatCategory(Red))
  }

  /** The white column, in catalog order. */
  function WhiteMeats(meats: seq<MeatType>): seq<MeatType> {
    Filter(meats, OfMeatCategory(White))
  }

  function IsMuscleMeat(m: MeatType): bool {
    m.category == Red || m.category == White
  }

  /** The two columns together list every red or white entry exactly once
      and nothing else. */
  lemma {:induction false} ColumnsPartitionMuscleMeats(meats: seq<MeatType>)
    ensures multiset(RedMeats(meats)) + multiset(WhiteMeats(meats)) == multiset(Filter(meats, IsMuscleMeat))
    ensures forall m :: m in RedMeats(meats) ==> m !in WhiteMeats(meats)
  {
    if meats != [] {
      ColumnsPartitionMuscleMeats(meats[1..]);
      assert meats == [meats[0]] + meats[1..];
    }
  }

  /** The built-in catalog shows four red and seven white entries. */
  lemma DefaultColumns()
    ensures |RedMeats(DefaultMeats)| == 4 && |WhiteMeats(DefaultMeats)| == 7
  {
    DefaultMeatsShape();
    ColumnSizes(DefaultMeats, 4);
  }

  /** A catalog of `n` red entries followed only by white ones splits into
      columns of `n` and the rest. */
  lemma ColumnSizes(s: seq<MeatType>, n: nat)
    requires n <= |s|
    requires forall i :: 0 <= i < n ==> s[i].category == Red
    requires forall i :: n <= i < |s| ==> s[i].category == White
    ensures |RedMeats(s)| == n && |WhiteMeats(s)| == |s| - n
  {
    var red := OfMeatCategory(Red);
    var white := OfMeatCategory(White);
    var a := s[..n];
    var b := s[n..];
    assert s == a + b;
    FilterAll(a, red);
    FilterAll(b, white);
    NoneKept(b, red);
    NoneKept(a, white);
    FilterAppend(a, b, red);
    FilterAppend(a, b, white);
  }

  lemma NoneKept(s: seq<MeatType>, p: MeatType -> bool)
    requires forall i :: 0 <= i < |s| ==> !p(s[i])
    ensures Filter(s, p) == []
  {
  }

  function NotMeat(id: string): MeatType -> bool {
    (m: MeatType) => m.id != id
  }

  /** Saving an edit: the entry being edited takes the new name and
      category, keeping its id and built-in flag; every other entry is kept. */
  function RenameById(meats: seq<MeatType>, editingId: Option<string>, name: string, category: MeatCategory)
    : (r: seq<MeatType>)
    ensures |r| == |meats|
    ensures forall k :: 0 <= k < |r| ==> r[k].id == meats[k].id && r[k].isSystem == meats[k].isSystem
    ensures forall k :: 0 <= k < |r| && editingId == Some(meats[k].id) ==> r[k].name == name && r[k].category == category
    ensures forall k :: 0 <= k < |r| && editingId != Some(meats[k].id) ==> r[k] == meats[k]
  {
    seq(|meats|, k requires 0 <= k < |meats| =>
      if editingId == Some(meats[k].id) then meats[k].(name := name, category := category) else meats[k])
  }

  class MeatCatalog {
    var meats: seq<MeatType>
    var newName: string
    var newCategory: MeatCategory
    var editingId: Option<string>
    var editName: string
    var editCategory: MeatCategory

    constructor(meats: seq<MeatType>)
      ensures this.meats == meats && newName == "" && newCategory == Red
      ensures editingId == None && editName == "" && editCategory == Red
    {
      this.meats := meats;
      newName := "";
      newCategory := Red;
      editingId := None;
      editName := "";
      editCategory := Red;
    }

    /** `handleAdd`: a blank name is refused; otherwise a user entry with
        the name as typed (untrimmed) is appended and the name field cleared. */
    method HandleAdd(freshId: string) returns (added: bool)
      modifies this
      ensures added <==> !IsBlank(old(newName))
      ensures added ==> meats == old(meats) + [MeatType(freshId, old(newName), newCategory, false)] && newName == ""
      ensures !added ==> meats == old(meats) && newName == old(newName)
      ensures newCategory == old(newCategory) && editingId == old(editingId)
      ensures editName == old(editName) && editCategory == old(editCategory)
    {
      if IsBlank(newName) {
        return false;
      }
      meats := meats + [MeatType(freshId, newName, newCategory, false)];
      newName := "";
      added := true;
    }

    /** `handleDelete` once confirmed; built-in entries are deleted too. */
    method HandleDelete(id: string)
      modifies this
      ensures meats == Filter(old(meats), NotMeat(id))
      ensures forall m :: m in meats <==> m in old(meats) && m.id != id
      ensures newName == old(newName) && newCategory == old(newCategory) && editingId == old(editingId)
      ensures editName == old(editName) && editCategory == old(editCategory)
    {
      meats := Filter(meats, NotMeat(id));
    }

    /** `startEdit`: the edit fields take the entry's current values. */
    method StartEdit(meat: MeatType)
      modifies this
      ensures editingId == Some(meat.id) && editName == meat.name && editCategory == meat.category
      ensures meats == old(meats) && newName == old(newName) && newCategory == old(newCategory)
    {
      editingId := Some(meat.id);
      editName := meat.name;
      editCategory := meat.category;
    }

    /** `saveEdit`: a blank name is refused and editing continues; otherwise
        the edited entry is renamed and editing ends. */
    method SaveEdit() returns (saved: bool)
      modifies this
      ensures saved <==> !IsBlank(old(editName))
      ensures saved ==> meats == RenameById(old(meats), old(editingId), old(editName), old(editCategory)) && editingId == None
      ensures !saved ==> meats == old(meats) && editingId == old(editingId)
      ensures |meats| == |old(meats)|
      ensures newName == old(newName) && newCategory == old(newCategory)
      ensures editName == old(editName) && editCategory == old(editCategory)
    {
      if IsBlank(editName) {
        return false;
      }
      meats := RenameById(meats, editingId, editName, editCategory);
      editingId := None;
      saved := true;
    }

    method CancelEdit()
      modifies this
      ensures editingId == None
      ensures meats == old(meats) && newName == old(newName) && newCategory == old(newCategory)
      ensures editName == old(editName) && editCategory == old(editCategory)
    {
      editingId := None;
    }
  }
}
