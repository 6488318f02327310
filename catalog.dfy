/**
 * The menu: four categories of items, the flat list item pages index into, and
 * the defaults every flat entry receives for `rating` and `calories`.
 */
module Catalog {
  import opened Wrappers
  import opened Items

  /** Nutrition facts in the order the menu lists them. */
  function Facts(calories: real, fat: real, carbs: real, protein: real, sugar: real, sodium: real): Nutrition {
    map["calories" := calories, "fat" := fat, "carbs" := carbs,
        "protein" := protein, "sugar" := sugar, "sodium" := sodium]
  }

  datatype Menu = Menu(
    appetizers: seq<MenuItem>,
    mainDishes: seq<MenuItem>,
    drinks: seq<MenuItem>,
    desserts: seq<MenuItem>)

  /** The menu as declared, before any defaults are added. */
  const APPETIZERS: seq<MenuItem> :=
    [ New(Food, "Hummus", 45, "images/hummus.jpg", "Creamy chickpea dip with tahini, lemon, and garlic", "appetizers", Facts(200.0, 10.0, 18.0, 6.0, 2.0, 300.0)),
      New(Food, "Baba Ganoush", 50, "images/Baba ghanoug.jpg", "Smoky roasted eggplant dip with tahini", "appetizers", Facts(180.0, 12.0, 10.0, 3.0, 2.0, 220.0)),
      New(Food, "Fattoush Salad", 55, "images/Fattoush salad.jpg", "Fresh mixed salad with crispy pita bread", "appetizers", Facts(120.0, 6.0, 10.0, 2.0, 3.0, 150.0)),
      New(Food, "Tabbouleh", 48, "images/Tabbouleh.jpg", "Parsley salad with tomatoes, bulgur, and mint", "appetizers", Facts(160.0, 7.0, 20.0, 4.0, 2.0, 120.0)),
      New(Food, "Stuffed Vine Leaves", 60, "images/Stuffed Vine Leaves.jpg", "Rice-stuffed grape leaves with herbs", "appetizers", Facts(140.0, 5.0, 22.0, 3.0, 1.0, 200.0)) ]

  const MAIN_DISHES: seq<MenuItem> :=
    [ New(Food, "Koshari", 60, "images/Koshari.jpg", "Egypt's national dish with rice, lentils, and pasta", "mainDishes", Facts(520.0, 12.0, 90.0, 15.0, 5.0, 480.0)),
      New(Food, "Shawarma", 120, "images/Shawarma.jpg", "Marinated meat with garlic sauce and pickles", "mainDishes", Facts(650.0, 35.0, 30.0, 40.0, 3.0, 900.0)),
      New(Food, "Ful Medames", 45, "images/Full medames.jpg", "Traditional fava beans cooked to perfection", "mainDishes", Facts(360.0, 8.0, 40.0, 18.0, 4.0, 400.0)),
      New(Food, "Grilled Kofta", 140, "images/Grilled Kofta.jpg", "Spiced ground meat skewers with tahini", "mainDishes", Facts(580.0, 40.0, 10.0, 35.0, 2.0, 700.0)),
      New(Food, "Hawawshi", 80, "images/Hawawshi.jpg", "Spiced meat baked in crispy bread", "mainDishes", Facts(550.0, 28.0, 45.0, 25.0, 3.0, 650.0)),
      New(Food, "Molokhia", 75, "images/molokhia.jpg", "Traditional jute leaf stew with chicken", "mainDishes", Facts(330.0, 10.0, 8.0, 30.0, 1.0, 520.0)),
      New(Food, "Kofta with Rice", 130, "images/Kofta with rice.jpg", "Spiced meatballs with aromatic rice", "mainDishes", Facts(620.0, 30.0, 60.0, 32.0, 2.0, 700.0)) ]

  const DRINKS: seq<MenuItem> :=
    [ New(Drink, "Pepsi", 25, "images/pepsi.jpg", "Refreshing carbonated soft drink", "drinks", Facts(150.0, 0.0, 39.0, 0.0, 39.0, 30.0)),
      New(Drink, "Mango Juice", 40, "images/Mango juice.jpg", "Fresh tropical mango juice", "drinks", Facts(180.0, 0.5, 42.0, 1.0, 40.0, 10.0)),
      New(Drink, "Fresh Orange", 35, "images/Fresh Orange juice.jpg", "Freshly squeezed orange juice", "drinks", Facts(120.0, 0.0, 28.0, 2.0, 24.0, 0.0)),
      New(Drink, "Tea", 20, "images/tea.jpg", "Traditional Egyptian black tea", "drinks", Facts(5.0, 0.0, 0.0, 0.0, 0.0, 5.0)),
      New(Drink, "Hibiscus", 30, "images/Hibiscus.jpg", "Refreshing hibiscus tea (Karkade)", "drinks", Facts(10.0, 0.0, 2.0, 0.0, 1.0, 5.0)),
      New(Drink, "Lemon Mint", 32, "images/Lemon ment.jpg", "Cool lemonade with fresh mint", "drinks", Facts(80.0, 0.0, 20.0, 0.0, 18.0, 10.0)),
      New(Drink, "Coffee", 25, "images/coffee.jpg", "Rich Turkish coffee", "drinks", Facts(5.0, 0.0, 1.0, 0.0, 0.0, 5.0)) ]

  const DESSERTS: seq<MenuItem> :=
    [ New(Food, "Baklava", 65, "images/baklava.jpg", "Layers of phyllo with nuts and honey", "desserts", Facts(420.0, 24.0, 50.0, 6.0, 35.0, 200.0)),
      New(Food, "Basbousa", 50, "images/basbousa.jpg", "Sweet semolina cake with syrup", "desserts", Facts(360.0, 15.0, 50.0, 5.0, 30.0, 180.0)),
      New(Food, "Umm Ali", 55, "images/Um ali.jpg", "Traditional bread pudding with nuts", "desserts", Facts(300.0, 12.0, 40.0, 8.0, 20.0, 140.0)),
      New(Food, "Kunafa", 70, "images/kunafa.jpg", "Sweet cheese pastry with syrup", "desserts", Facts(450.0, 26.0, 48.0, 8.0, 32.0, 220.0)),
      New(Food, "Mahalabia", 40, "images/mahalabia.jpg", "Creamy milk pudding with rose water", "desserts", Facts(200.0, 6.0, 30.0, 6.0, 20.0, 80.0)),
      New(Food, "Zalabia", 45, "images/zalabia.jpg", "Crispy fried dough with honey", "desserts", Facts(330.0, 14.0, 50.0, 3.0, 28.0, 160.0)) ]

  const MENU := Menu(APPETIZERS, MAIN_DISHES, DRINKS, DESSERTS)

  /** The categories laid end to end in their fixed order; positions in it are item ids. */
  function Flatten(m: Menu): (all: seq<MenuItem>)
    ensures |all| == |m.appetizers| + |m.mainDishes| + |m.drinks| + |m.desserts|
    ensures var a, b, c := |m.appetizers|, |m.mainDishes|, |m.drinks|;
      (forall i :: 0 <= i < a ==> all[i] == m.appetizers[i]) &&
      (forall i :: 0 <= i < b ==> all[a + i] == m.mainDishes[i]) &&
      (forall i :: 0 <= i < c ==> all[a + b + i] == m.drinks[i]) &&
      (forall i :: 0 <= i < |m.desserts| ==> all[a + b + c + i] == m.desserts[i])
  {
    m.appetizers + m.mainDishes + m.drinks + m.desserts
  }

  /** Default rating in tenths of a star: 4.2 for drinks, 4.6 for everything else. */
  function DefaultRating(kind: Kind): int {
    if kind == Drink then 42 else 46
  }

  /** Default calories: 150 for drinks, 450 for everything else. */
  function DefaultCalories(kind: Kind): real {
    if kind == Drink then 150.0 else 450.0
  }

  /** Whether `nutrition.calories` is truthy: present and not zero. */
  predicate HasCalorieFact(n: Nutrition) {
    "calories" in n && n["calories"] != 0.0
  }

  /** One step of the normalising `forEach`: a missing rating or calories gets its default. */
  function WithDefaults(item: MenuItem): (r: MenuItem)
    ensures r.rating.Some? && r.calories.Some?
    ensures item.rating.Some? ==> r.rating == item.rating
    ensures item.calories.Some? ==> r.calories == item.calories
    ensures r.(rating := item.rating, calories := item.calories) == item
  {
    var rating := if item.rating.None? then Some(DefaultRating(item.kind)) else item.rating;
    var calories :=
      if item.calories.Some? then item.calories
      else if HasCalorieFact(item.nutrition) then Some(item.nutrition["calories"])
      else Some(DefaultCalories(item.kind));
    item.(rating := rating, calories := calories)
  }

  /** The flat list after normalising: every entry given its defaults, in place. */
  function Normalized(items: seq<MenuItem>): (r: seq<MenuItem>)
    ensures |r| == |items|
    ensures forall i :: 0 <= i < |items| ==> r[i] == WithDefaults(items[i])
  {
    seq(|items|, i requires 0 <= i < |items| => WithDefaults(items[i]))
  }

  /** The `forEach` over `allMenuItems`, which updates every entry where it stands. */
  method NormalizeInPlace(a: array<MenuItem>)
    modifies a
    ensures a[..] == Normalized(old(a[..]))
  {
    for i := 0 to a.Length
      invariant forall j :: 0 <= j < i ==> a[j] == WithDefaults(old(a[j]))
      invariant forall j :: i <= j < a.Length ==> a[j] == old(a[j])
    {
      a[i] := WithDefaults(a[i]);
    }
  }

  /** `allMenuItems` once the script has run. */
  function AllMenuItems(): seq<MenuItem> {
    Normalized(Flatten(MENU))
  }

  /** Every category with each entry normalised where it stands. */
  function NormalizedMenu(m: Menu): Menu {
    Menu(Normalized(m.appetizers), Normalized(m.mainDishes), Normalized(m.drinks), Normalized(m.desserts))
  }

  /**
   * The categories as the menu page renders them. The spread copies object
   * references, so the `forEach` over `allMenuItems` also fills in the
   * defaults of every `menu.*` entry.
   */
  function RenderedMenu(): Menu {
    NormalizedMenu(MENU)
  }

  lemma NormalizedAppend(a: seq<MenuItem>, b: seq<MenuItem>)
    ensures Normalized(a + b) == Normalized(a) + Normalized(b)
  {
    assert forall i :: 0 <= i < |a| + |b| ==> Normalized(a + b)[i] == (Normalized(a) + Normalized(b))[i];
  }

  /** Normalising the flat list and normalising each category give the same entries, in the same positions. */
  lemma {:induction false} FlattenNormalized(m: Menu)
    ensures Flatten(NormalizedMenu(m)) == Normalized(Flatten(m))
  {
    var a, b, c, d := m.appetizers, m.mainDishes, m.drinks, m.desserts;
    NormalizedAppend(a, b);
    NormalizedAppend(a + b, c);
    NormalizedAppend(a + b + c, d);
  }

  /** The entries the menu page renders are exactly the flat catalogue's. */
  lemma SharedEntries()
    ensures Flatten(RenderedMenu()) == AllMenuItems()
  {
    FlattenNormalized(MENU);
  }

  /** Every entry as declared has neither a rating nor calories of its own. */
  predicate Fresh(items: seq<MenuItem>) {
    forall i :: 0 <= i < |items| ==> items[i].rating.None? && items[i].calories.None?
  }

  /** Every entry is fresh, of kind `kind`, and filed under `category`. */
  predicate Section(items: seq<MenuItem>, kind: Kind, category: string) {
    Fresh(items) && forall i :: 0 <= i < |items| ==> items[i].kind == kind && items[i].category == category
  }

  lemma AppetizersSection() ensures |APPETIZERS| == 5 && Section(APPETIZERS, Food, "appetizers") {}
  lemma MainDishesSection() ensures |MAIN_DISHES| == 7 && Section(MAIN_DISHES, Food, "mainDishes") {}
  lemma DrinksSection() ensures |DRINKS| == 7 && Section(DRINKS, Drink, "drinks") {}
  lemma DessertsSection() ensures |DESSERTS| == 6 && Section(DESSERTS, Food, "desserts") {}

  /** Where an id lands in the flat list: its section, and its position within it. */
  lemma FlatPosition(i: int)
    requires 0 <= i < |Flatten(MENU)|
    ensures |Flatten(MENU)| == 25
    ensures i < 5 ==> Flatten(MENU)[i] == APPETIZERS[i]
    ensures 5 <= i < 12 ==> Flatten(MENU)[i] == MAIN_DISHES[i - 5]
    ensures 12 <= i < 19 ==> Flatten(MENU)[i] == DRINKS[i - 12]
    ensures 19 <= i ==> Flatten(MENU)[i] == DESSERTS[i - 19]
  {
    assert |MENU.appetizers| == 5 && |MENU.mainDishes| == 7 && |MENU.drinks| == 7 && |MENU.desserts| == 6;
    var all := Flatten(MENU);
    if 5 <= i < 12 { assert all[5 + (i - 5)] == MAIN_DISHES[i - 5]; }
    else if 12 <= i < 19 { assert all[12 + (i - 12)] == DRINKS[i - 12]; }
    else if 19 <= i { assert all[19 + (i - 19)] == DESSERTS[i - 19]; }
  }

  /** Ids 0–4 are appetizers, 5–11 main dishes, 12–18 drinks and 19–24 desserts, and only drinks are drinks. */
  lemma CatalogOrder(i: int)
    requires 0 <= i < |Flatten(MENU)|
    ensures |AllMenuItems()| == 25
    ensures Fresh(Flatten(MENU))
    ensures AllMenuItems()[i].category ==
      if i < 5 then "appetizers" else if i < 12 then "mainDishes" else if i < 19 then "drinks" else "desserts"
    ensures AllMenuItems()[i].kind == if 12 <= i < 19 then Drink else Food
  {
    FlatPosition(i);
    AppetizersSection();
    MainDishesSection();
    DrinksSection();
    DessertsSection();
    var all := Flatten(MENU);
    forall j | 0 <= j < |all| ensures all[j].rating.None? && all[j].calories.None? {
      FlatPosition(j);
    }
  }

  /**
   * After normalising fresh entries, the rating is 4.2 for drinks and 4.6 otherwise,
   * and calories are the truthy `nutrition.calories` or else the kind's default.
   */
  lemma NormalizedDefaults(items: seq<MenuItem>, i: int)
    requires Fresh(items) && 0 <= i < |items|
    ensures var r, x := Normalized(items)[i], items[i];
      r.rating == Some(DefaultRating(x.kind)) &&
      r.calories == Some(if HasCalorieFact(x.nutrition) then x.nutrition["calories"] else DefaultCalories(x.kind)) &&
      r.kind == x.kind && r.name == x.name && r.price == x.price && r.nutrition == x.nutrition
  {
  }

  /** The catalog's ratings and calories after loading. */
  lemma CatalogDefaults(i: int)
    requires 0 <= i < |AllMenuItems()|
    ensures var r := AllMenuItems()[i];
      r.rating == Some(if r.kind == Drink then 42 else 46) &&
      r.calories == Some(if HasCalorieFact(r.nutrition) then r.nutrition["calories"]
                         else if r.kind == Drink then 150.0 else 450.0)
  {
    CatalogOrder(i);
    NormalizedDefaults(Flatten(MENU), i);
  }
}
