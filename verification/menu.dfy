/** handlers/menu.py and the menu parts of bot.py: the category keyboard,
    which sheet a typed text selects, the browsing flags, and the card each
    dish is shown with. The sheet names and the records of each sheet are
    inputs (`Catalog`); the cache in front of them is not modelled. */
module Menu {
  import opened Results
  import opened Text
  import opened Sheets

  const BackText := "⬅️ Назад"

  /** The category names and, per sheet, its records; a sheet missing from
      `sheets` is one whose read fails (the handler raises). */
  datatype Catalog = Catalog(names: seq<string>, sheets: map<string, seq<Record>>)

  function Dishes(cat: Catalog, sheet: string): (r: Option<seq<Record>>)
    ensures r.Some? <==> sheet in cat.sheets
    ensures r.Some? ==> r.value == cat.sheets[sheet]
  {
    if sheet in cat.sheets then Some(cat.sheets[sheet]) else None
  }

  function Min(a: int, b: int): int {
    if a < b then a else b
  }

  /** `[cats[i:i+2] for i in range(0, len(cats), 2)]`. */
  function Pairs(cats: seq<string>): (rows: seq<seq<string>>)
    ensures |rows| == (|cats| + 1) / 2
    ensures forall i :: 0 <= i < |rows| ==> 1 <= |rows[i]| <= 2
    decreases |cats|
  {
    if |cats| == 0 then [] else [cats[..Min(2, |cats|)]] + Pairs(cats[Min(2, |cats|)..])
  }

  function Flatten(rows: seq<seq<string>>): seq<string> {
    if |rows| == 0 then [] else rows[0] + Flatten(rows[1..])
  }

  /** The category keyboard: the pairs, then a row with only "Back". */
  function CategoryRows(cats: seq<string>): (rows: seq<seq<string>>)
    ensures |rows| == (|cats| + 1) / 2 + 1
    ensures rows[|rows| - 1] == [BackText]
    ensures forall i :: 0 <= i < |rows| - 1 ==> 1 <= |rows[i]| <= 2
  {
    Pairs(cats) + [[BackText]]
  }

  /** Reading the rows before "Back" left to right gives the categories back,
      each row a consecutive pair (the last may hold one). */
  lemma CategoryRowsFlatten(cats: seq<string>)
    ensures var rows := CategoryRows(cats); Flatten(rows[..|rows| - 1]) == cats
  {
    var rows := CategoryRows(cats);
    assert rows[..|rows| - 1] == Pairs(cats);
    PairsFlatten(cats);
  }

  lemma {:induction false} PairsFlatten(cats: seq<string>)
    ensures Flatten(Pairs(cats)) == cats
    decreases |cats|
  {
    if |cats| > 0 {
      var k := Min(2, |cats|);
      PairsFlatten(cats[k..]);
      assert cats == cats[..k] + cats[k..];
    }
  }

  /** Index of the first name ending with `text`. */
  function FirstEndingWith(names: seq<string>, text: string): (r: Option<nat>)
    ensures r.Some? ==> r.value < |names| && EndsWith(names[r.value], text)
    ensures r.Some? ==> forall j :: 0 <= j < r.value ==> !EndsWith(names[j], text)
    ensures r.None? ==> forall j :: 0 <= j < |names| ==> !EndsWith(names[j], text)
  {
    if |names| == 0 then None
    else if EndsWith(names[0], text) then Some(0)
    else match FirstEndingWith(names[1..], text)
      case None => None
      case Some(i) => Some(i + 1)
  }

  /** The sheet `show_dishes_for_text` picks for a typed text: the text
      itself when it is a category, else the first category ending with it;
      None when there is none, or when the pick is the empty name. */
  function ResolveCategory(names: seq<string>, text: string): (r: Option<string>)
    ensures r.Some? ==> r.value in names && r.value != ""
    ensures text in names && text != "" ==> r == Some(text)
    ensures text !in names && r.Some? ==> EndsWith(r.value, text)
    ensures text !in names && (forall j :: 0 <= j < |names| ==> !EndsWith(names[j], text)) ==> r.None?
    ensures text !in names && (exists j :: 0 <= j < |names| && EndsWith(names[j], text)) ==> r.Some?
  {
    var pick: Option<string> :=
      if text in names then Some(text)
      else match FirstEndingWith(names, text)
        case None => None
        case Some(i) => Some(names[i]);
    if pick.Some? && pick.value != "" then pick else None
  }

  /** An exact name wins even when an earlier category ends with it. */
  lemma ExactMatchWins(names: seq<string>, text: string, j: nat)
    requires text in names && text != "" && j < |names| && EndsWith(names[j], text) && names[j] != text
    ensures ResolveCategory(names, text) == Some(text) && ResolveCategory(names, text) != Some(names[j])
  {
  }

  /** Without an exact match the choice is the first name ending with the
      text: no earlier name does. */
  lemma SuffixPicksFirst(names: seq<string>, text: string)
    requires text !in names
    requires exists j :: 0 <= j < |names| && EndsWith(names[j], text)
    ensures ResolveCategory(names, text).Some?
    ensures exists i :: (0 <= i < |names| && names[i] == ResolveCategory(names, text).value &&
      EndsWith(names[i], text) && forall j :: 0 <= j < i ==> !EndsWith(names[j], text))
  {
    var i := FirstEndingWith(names, text).value;
    assert names[i] == ResolveCategory(names, text).value;
  }

  /** The `in_categories` and `in_dishes` flags of the user's record. */
  datatype Browsing = Browsing(inCategories: bool, inDishes: bool)

  /** `show_categories`: the category list is on screen. */
  function ShowCategories(b: Browsing): (r: Browsing)
    ensures r.inCategories && !r.inDishes
  {
    Browsing(true, false)
  }

  /** `show_dishes_for_text`: the flags flip to the dish list only when the
      text selects a sheet; an unknown text leaves them as they were. */
  function ChooseCategory(b: Browsing, names: seq<string>, text: string): (r: Browsing)
    ensures ResolveCategory(names, text).None? ==> r == b
    ensures ResolveCategory(names, text).Some? ==> !r.inCategories && r.inDishes
  {
    if ResolveCategory(names, text).Some? then Browsing(false, true) else b
  }

  /** "Back" from a dish list returns to the categories; anywhere else it
      leaves the categories (the dish flag is left as it was). */
  function GoBack(b: Browsing): (r: Browsing)
    ensures b.inDishes ==> r == Browsing(true, false)
    ensures !b.inDishes ==> !r.inCategories && r.inDishes == b.inDishes
  {
    if b.inDishes then Browsing(true, false) else b.(inCategories := false)
  }

  /** `d.get(key, default)`. */
  function Get(d: Record, key: string, default: string): (r: string)
    ensures key in d ==> r == d[key]
    ensures key !in d ==> r == default
  {
    if key in d then d[key] else default
  }

  const NameKey := "Название блюда"
  const PriceKey := "Цена"
  const PhotoKey := "Ссылка на изображение"

  /** `str(d.get("ID"))`: a missing ID prints as "None". */
  function IdText(d: Record): (r: string)
    ensures IdKey in d ==> r == d[IdKey]
    ensures IdKey !in d ==> r == "None"
  {
    Get(d, IdKey, "None")
  }

  /** What a dish is shown with: its name and price, the callback data of
      its "add" button, and the photo link when there is one. */
  datatype Card = Card(name: string, price: string, data: string, photo: Option<string>)

  function AddData(sheet: string, id: string): string {
    "add:" + sheet + ":" + id
  }

  function DishCard(sheet: string, d: Record): (c: Card)
    ensures c.data == AddData(sheet, IdText(d))
    ensures c.photo.Some? <==> PhotoKey in d && StartsWith(d[PhotoKey], "http")
    ensures c.photo.Some? ==> c.photo.value == d[PhotoKey]
    ensures c.name == Get(d, NameKey, "Без названия") && c.price == Get(d, PriceKey, "0")
  {
    var link := Get(d, PhotoKey, "");
    Card(Get(d, NameKey, "Без названия"), Get(d, PriceKey, "0"), AddData(sheet, IdText(d)),
      if StartsWith(link, "http") then Some(link) else None)
  }

  function DishCards(sheet: string, dishes: seq<Record>): (cs: seq<Card>)
    ensures |cs| == |dishes|
    ensures forall i :: 0 <= i < |dishes| ==> cs[i] == DishCard(sheet, dishes[i])
  {
    seq(|dishes|, i requires 0 <= i < |dishes| => DishCard(sheet, dishes[i]))
  }

  /** The button of a card reads back, through the three-way split, as the
      sheet and the dish id, whenever the sheet name holds no colon. */
  lemma AddDataRoundTrip(sheet: string, d: Record)
    requires ':' !in sheet
    ensures Split3(DishCard(sheet, d).data) == Some(("add", sheet, IdText(d)))
    ensures StartsWith(DishCard(sheet, d).data, "add:")
  {
    Split3OfJoin("add", sheet, IdText(d));
    assert "add" + ":" + sheet + ":" + IdText(d) == AddData(sheet, IdText(d));
    assert AddData(sheet, IdText(d))[..4] == "add:";
  }
}
