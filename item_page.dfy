/**
 * The item detail page: resolving the `id` query parameter against the flat
 * catalog, the calories it shows, and the quantity it hands to `addItem`.
 */
module ItemPage {
  import opened Wrappers
  import opened Text
  import opened Items
  import opened Cart
  import opened Orders
  import opened Catalog

  datatype Page = NotFound | Details(item: MenuItem)

  /** The id `parseInt(params.get('id'))` reads; a missing parameter is `null`, which reads as "null". */
  function IdOf(idParam: Option<string>): Option<int> {
    ParseInt(idParam.GetOr("null"))
  }

  /** A missing `id` parameter parses to NaN. */
  lemma MissingIdIsNaN()
    ensures IdOf(None) == None
  {
    var s := "null";
    assert s[0] == 'n';
    ParseWithoutSpace(s);
    assert ParseMagnitude(s) == None by {
      assert LongestPrefix(s, IsDigit) == [] by { assert !IsDigit(s[0]); }
    }
  }

  /** Which page shows: the catalog entry at the parsed id, or "not found" for NaN or no entry there. */
  function Resolve(catalog: seq<MenuItem>, idParam: Option<string>): (page: Page)
    ensures page.Details? <==> IdOf(idParam).Some? && 0 <= IdOf(idParam).value < |catalog|
    ensures page.Details? ==> page.item == catalog[IdOf(idParam).value]
    ensures idParam.None? ==> page == NotFound
  {
    MissingIdIsNaN();
    var id := IdOf(idParam);
    if id.None? || !(0 <= id.value < |catalog|) then NotFound else Details(catalog[id.value])
  }

  /** `allMenuItems.indexOf(item)`, the id the menu page puts in an item's link. */
  function IndexOf(catalog: seq<MenuItem>, item: MenuItem): (k: int)
    ensures -1 <= k < |catalog|
    ensures k == -1 <==> item !in catalog
    ensures k >= 0 ==> catalog[k] == item && item !in catalog[..k]
    decreases |catalog|
  {
    if |catalog| == 0 then -1
    else if catalog[0] == item then 0
    else
      var k := IndexOf(catalog[1..], item);
      assert catalog[1..][..k + 1] == catalog[1..k + 2];
      if k == -1 then -1 else k + 1
  }

  /** The link the menu page builds for a catalog item opens that item's page. */
  lemma LinkResolves(catalog: seq<MenuItem>, item: MenuItem)
    requires item in catalog
    ensures Resolve(catalog, Some(IntToString(IndexOf(catalog, item)))) == Details(item)
  {
    ParseIntOfIntToString(IndexOf(catalog, item));
  }

  /** A link on the menu page, built for an entry it renders, opens a page showing that entry. */
  lemma MenuLinkResolves(item: MenuItem)
    requires item in Flatten(RenderedMenu())
    ensures Resolve(AllMenuItems(), Some(IntToString(IndexOf(AllMenuItems(), item)))) == Details(item)
  {
    var all := AllMenuItems();
    assert item in all by {
      SharedEntries();
    }
    LinkResolves(all, item);
  }

  /** What the page shows for calories. */
  datatype Shown = Amount(value: real) | NotAvailable

  /** `nutrition.calories ?? item.calories ?? 'N/A'`: only an absent value falls through, so 0 is shown. */
  function DisplayedCalories(item: MenuItem): (c: Shown)
    ensures "calories" in item.nutrition ==> c == Amount(item.nutrition["calories"])
    ensures "calories" !in item.nutrition && item.calories.Some? ==> c == Amount(item.calories.value)
    ensures c == NotAvailable <==> "calories" !in item.nutrition && item.calories.None?
  {
    if "calories" in item.nutrition then Amount(item.nutrition["calories"])
    else if item.calories.Some? then Amount(item.calories.value)
    else NotAvailable
  }

  /**
   * The two fallbacks disagree on a zero: the catalog stores the kind's default
   * for `calories`, the page still shows the 0 from the nutrition facts.
   */
  lemma ZeroCaloriesDisagree(item: MenuItem)
    requires item.calories.None? && "calories" in item.nutrition && item.nutrition["calories"] == 0.0
    ensures WithDefaults(item).calories == Some(DefaultCalories(item.kind))
    ensures DisplayedCalories(WithDefaults(item)) == Amount(0.0)
    ensures DefaultCalories(item.kind) != 0.0
  {
  }

  /** For a non-zero calorie fact, the page shows what the catalog stored. */
  lemma CaloriesAgree(item: MenuItem)
    requires item.calories.None? && HasCalorieFact(item.nutrition)
    ensures DisplayedCalories(WithDefaults(item)) == Amount(WithDefaults(item).calories.value)
  {
  }

  /**
   * The quantity the "Add to Order" handler passes on: 1 without an input field,
   * otherwise `parseInt(value) || 1` (NaN and 0 fall back to 1), raised to 1 if below.
   */
  function NormalQuantity(qtyInput: Option<string>): (qty: int)
    ensures qty >= 1
    ensures qtyInput.None? ==> qty == 1
    ensures qtyInput.Some? ==>
      var parsed := ParseInt(qtyInput.value);
      qty == if parsed.Some? && parsed.value >= 1 then parsed.value else 1
  {
    if qtyInput.None? then 1
    else
      var parsed := ParseInt(qtyInput.value);
      var q := if parsed.Some? && parsed.value != 0 then parsed.value else 1;
      if q < 1 then 1 else q
  }

  /** A field holding a printed integer yields that integer when it is at least 1, and 1 otherwise. */
  lemma NormalQuantityOfPrinted(n: int)
    ensures NormalQuantity(Some(IntToString(n))) == if n >= 1 then n else 1
  {
    ParseIntOfIntToString(n);
  }

  /** The handler's steps, with the input field's value. */
  method QuantityFromInput(qtyInput: Option<string>) returns (qty: int)
    ensures qty == NormalQuantity(qtyInput)
  {
    qty := 1;
    if qtyInput.Some? {
      var parsed := ParseInt(qtyInput.value);
      qty := if parsed.Some? && parsed.value != 0 then parsed.value else 1;
      if qty < 1 {
        qty := 1;
      }
    }
  }

  /** The "Add to Order" click on the page of `item`. */
  method AddToOrder(order: OrderManager, item: MenuItem, qtyInput: Option<string>) returns (qty: int, notice: Toast)
    modifies order
    ensures qty == NormalQuantity(qtyInput) && qty >= 1
    ensures order.items == AddLine(old(order.items), item, NormalQuantity(qtyInput))
    ensures order.SavedOver(old(order.storage))
    ensures AllPositive(old(order.items)) ==> AllPositive(order.items)
    ensures UniqueNames(old(order.items)) ==> UniqueNames(order.items)
    ensures notice == ADDED
  {
    qty := QuantityFromInput(qtyInput);
    notice := order.AddItem(item, qty);
  }
}
