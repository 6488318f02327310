/**
 * Menu items: the base `MenuItem` and its `FoodItem` / `DrinkItem` subclasses,
 * as one datatype tagged by Kind, and their storage record (`toJSON` / `fromJSON`).
 */
module Items {
  import opened Wrappers
  import opened Text

  /** Which class built the item. */
  datatype Kind = Food | Drink | Base

  /** Nutrient name to amount, with any subset of the keys present. */
  type Nutrition = map<string, real>

  /**
   * An item with the fields its constructor sets, plus the two the catalog adds
   * afterwards: `rating` (in tenths of a star) and `calories`, absent until then.
   */
  datatype MenuItem = MenuItem(
    kind: Kind,
    name: string,
    price: int,
    image: string,
    description: string,
    category: string,
    nutrition: Nutrition,
    rating: Option<int>,
    calories: Option<real>)

  /** What `new FoodItem(...)`, `new DrinkItem(...)` or `new MenuItem(...)` builds. */
  function New(kind: Kind, name: string, price: int, image: string,
               description: string, category: string, nutrition: Nutrition): MenuItem
  {
    MenuItem(kind, name, price, image, description, category, nutrition, None, None)
  }

  /** The part of `displayInfo` the three classes share. */
  function BaseDisplay(item: MenuItem): string {
    item.name + " - " + IntToString(item.price) + " EGP"
  }

  /** What the overriding `displayInfo` appends to the shared part. */
  function DisplaySuffix(kind: Kind): string {
    match kind
    case Food => " (Served Hot)"
    case Drink => " (Served Cold)"
    case Base => ""
  }

  /** `displayInfo()`, chosen by the kind instead of by virtual dispatch. */
  function DisplayInfo(item: MenuItem): (r: string)
    ensures |r| >= |BaseDisplay(item)| && r[..|BaseDisplay(item)|] == BaseDisplay(item)
    ensures r == BaseDisplay(item) <==> item.kind == Base
  {
    BaseDisplay(item) + DisplaySuffix(item.kind)
  }

  /** Two items with the same name and price display alike exactly when their kinds agree. */
  lemma DisplayInfoDeterminesKind(a: MenuItem, b: MenuItem)
    requires a.name == b.name && a.price == b.price
    ensures DisplayInfo(a) == DisplayInfo(b) <==> a.kind == b.kind
  {
    var p := BaseDisplay(a);
    assert BaseDisplay(b) == p;
    if DisplayInfo(a) == DisplayInfo(b) {
      var sa, sb := DisplaySuffix(a.kind), DisplaySuffix(b.kind);
      assert p + sa == p + sb;
      assert sa == (p + sa)[|p|..];
      assert sb == (p + sb)[|p|..];
      assert sa == sb;
    }
  }

  /** `getCategory()`: "food" for a FoodItem and "drink" for anything else. */
  function GetCategory(item: MenuItem): (r: string)
    ensures r == "food" || r == "drink"
    ensures r == "food" <==> item.kind == Food
  {
    if item.kind == Food then "food" else "drink"
  }

  /** The class name `toJSON` writes as `type`. */
  function TypeTag(kind: Kind): string {
    match kind
    case Food => "FoodItem"
    case Drink => "DrinkItem"
    case Base => "MenuItem"
  }

  /**
   * The stored form of an item. Every field but name, price and image may be
   * missing from a stored record.
   */
  datatype ItemRecord = ItemRecord(
    tag: Option<string>,
    name: string,
    price: int,
    image: string,
    description: Option<string>,
    category: Option<string>,
    nutrition: Option<Nutrition>)

  /** A record of the shape `toJSON` writes: every optional field present and a class name as tag. */
  predicate Canonical(r: ItemRecord) {
    && r.tag in {Some("FoodItem"), Some("DrinkItem"), Some("MenuItem")}
    && r.description.Some? && r.category.Some? && r.nutrition.Some?
  }

  /** `toJSON()`: rating and calories are not written. */
  function ToRecord(item: MenuItem): (r: ItemRecord)
    ensures Canonical(r)
    ensures r.name == item.name && r.price == item.price && r.image == item.image
  {
    ItemRecord(Some(TypeTag(item.kind)), item.name, item.price, item.image,
               Some(item.description), Some(item.category), Some(item.nutrition))
  }

  /** The class `fromJSON` rebuilds: an unknown or absent tag gives the base class. */
  function KindOfTag(tag: Option<string>): (k: Kind)
    ensures k == Food <==> tag == Some("FoodItem")
    ensures k == Drink <==> tag == Some("DrinkItem")
  {
    if tag == Some("FoodItem") then Food
    else if tag == Some("DrinkItem") then Drink
    else Base
  }

  /** `MenuItem.fromJSON(data)`: a missing description or category is "", a missing nutrition map is empty. */
  function FromRecord(r: ItemRecord): (item: MenuItem)
    ensures item.kind == KindOfTag(r.tag)
    ensures item.name == r.name && item.price == r.price && item.image == r.image
    ensures item.rating.None? && item.calories.None?
  {
    New(KindOfTag(r.tag), r.name, r.price, r.image,
        r.description.GetOr(""), r.category.GetOr(""), r.nutrition.GetOr(map[]))
  }

  /** The item with the two catalog-only fields dropped, which is all `toJSON` keeps. */
  function Stored(item: MenuItem): MenuItem {
    item.(rating := None, calories := None)
  }

  /** Reading back what `toJSON` wrote gives the same kind and the same constructor fields. */
  lemma {:induction false} ItemRoundTrip(item: MenuItem)
    ensures FromRecord(ToRecord(item)) == Stored(item)
  {
    assert KindOfTag(Some(TypeTag(item.kind))) == item.kind by {
      match item.kind
      case Food =>
      case Drink => assert "DrinkItem" != "FoodItem";
      case Base => assert "MenuItem"[0] != "FoodItem"[0] && "MenuItem"[0] != "DrinkItem"[0];
    }
  }

  /** Writing out what `fromJSON` read gives the record back when it had the shape `toJSON` writes. */
  lemma {:induction false} RecordRoundTrip(r: ItemRecord)
    requires Canonical(r)
    ensures ToRecord(FromRecord(r)) == r
  {
    assert TypeTag(KindOfTag(r.tag)) == r.tag.value by {
      if r.tag == Some("MenuItem") {
        assert "MenuItem"[0] != "FoodItem"[0] && "MenuItem"[0] != "DrinkItem"[0];
      }
    }
  }
}
