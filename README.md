# Cairo Bites: the cart, the menu and the checkout

This project models the in-browser order logic of the Cairo Bites restaurant
site:

- the menu catalogue and its three item classes;
- the `OrderManager` cart with its browser-storage round trip;
- the item page's id lookup and quantity input;
- the checkout page's totals, confirmation message and "Place Order" handler.

The item classes `MenuItem`, `FoodItem` and `DrinkItem` become one datatype
with a `Kind`. The overriding `displayInfo` becomes a function of the kind.
`OrderManager` stays a class: its private `#items` array is a `seq` field that
its methods reassign. The storage entry it writes is a second field, which
each state-changing method updates.

The modules, in dependency order:

- `Wrappers`: `Option`.
- `Text`: how the page prints an integer; JavaScript `parseInt` without a
  radix (leading white space, a sign, a `0x`/`0X` prefix that switches to
  hexadecimal, the longest digit run, NaN as `None`); `join` and `split` on a
  single character, with `split(join(p)) == p` proved.
- `Items`: items, `displayInfo`, `getCategory`, `toJSON` and `fromJSON`.
- `Cart`:
  - cart lines and their records;
  - the pure line-sequence operations behind `addItem`, `removeItem`,
    `increaseQuantity` and `decreaseQuantity`;
  - totals and counts as sums;
  - how each operation moves them.
- `Orders`: the storage slot, `loadFromStorage`, and the `OrderManager` class
  with its `modifies`-framed methods.
- `Catalog`:
  - the 25 menu entries with their nutrition facts;
  - the flattening into `allMenuItems`;
  - the defaulting pass, as an in-place loop over an array;
  - the categories as the menu page sees them afterwards: the flat list holds
    the same objects, so the categories carry the defaults too.
- `ItemPage`: the `id` query parameter, the "not found" branch, the calories
  shown, and the quantity input.
- `Checkout`:
  - the cart view;
  - the order summary and confirmation message, proved to read back line by
    line as the intended lines;
  - the "Place Order" handler.
- `Scenarios`: the worked examples (Koshari twice; Shawarma and Tea; an empty
  store; an untagged record; quantities typed on the item page).

`addItem` does not clamp its quantity: the code (`js/classes.js:133-149`)
adds whatever it is given. `Cart.AddLine` therefore preserves positive
quantities only when the added quantity is at least 1. Only the item page
clamps (`js/item.js:118-121`), so `ItemPage.AddToOrder` keeps positive
quantities positive without a requirement on the quantity input.

The confirmation heading is written as the source file spells it. The file
holds the party-popper emoji's UTF-8 bytes read as Windows-1252, so the alert
opens with "Order Placed Successfully! " followed by U+00F0 U+0178 U+017D U+2030.

The defaulting pass and the item page disagree when an item's
`nutrition.calories` is `0`:

- `js/classes.js:304` treats it as missing and stores the kind's default.
- `js/item.js:79` uses `??` and shows the 0.

The lemma `ItemPage.ZeroCaloriesDisagree` states this. No catalogue entry has 0
calories, so the finished site never shows the difference.

## Model

| member | source | states |
|---|---|---|
| Items.DisplayInfo | js/classes.js:13-15 | the display starts with "name - price EGP" and equals it exactly for a base item |
| Items.DisplayInfoDeterminesKind | js/classes.js:53-67 | for equal name and price, displays agree exactly when the kinds (hot, cold, base) agree |
| Items.GetCategory | js/classes.js:18-20 | the result is "food" or "drink", and "food" exactly for a FoodItem |
| Items.ToRecord | js/classes.js:23-33 | the record carries the class tag and every constructor field; name, price and image are kept |
| Items.KindOfTag | js/classes.js:37-42 | "FoodItem" rebuilds food, "DrinkItem" a drink, and any other or absent tag the base class |
| Items.FromRecord | js/classes.js:36-43 | the kind follows the tag; name, price and image are copied; no rating or calories |
| Items.ItemRoundTrip | js/classes.js:23-43 | reading back a written item gives the same kind and constructor fields |
| Items.RecordRoundTrip | js/classes.js:23-43 | writing back a read canonical record gives the same record |
| Cart.LineTotal | js/classes.js:77-79 | `getTotalPrice()`, price times quantity; `Cart.AddLineTotals`, `Cart.RemoveAtTotals` and the other `*Totals` lemmas state how each edit moves its sum |
| Cart.LineToRecord | js/classes.js:82-87 | `CartItem.toJSON()`, the item's record and the quantity; inverted by `LineFromRecord` as `Cart.LinesRoundTrip` states |
| Cart.LineFromRecord | js/classes.js:90-95 | `CartItem.fromJSON()`, the rebuilt item and the stored quantity as is; see `Cart.LinesRoundTrip` |
| Cart.Serialize | js/classes.js:125 | one record per line, carrying its item's record and its quantity |
| Cart.Deserialize | js/classes.js:114 | one line per record, with its item rebuilt and its quantity copied |
| Cart.LinesRoundTrip | js/classes.js:82-95 | loading what was saved gives the lines back, with the same kinds, names, prices and quantities |
| Cart.StoredLinesKeepInvariants | js/classes.js:90-95 | unique names and positive quantities survive a save and load |
| Cart.FindByName | js/classes.js:134-136 | the first line with that name, or -1 exactly when no line has it |
| Cart.FindByNameUnique | js/classes.js:134-139 | with unique names, the found line is the only one with that name |
| Cart.AddLine | js/classes.js:133-144 | a matching line gains `qty` and nothing else changes, otherwise one line `(item, qty)` is appended; unique names are kept |
| Cart.RemoveAt | js/classes.js:152-154 | an in-range index drops exactly that line and shifts the rest; out of range is a no-op |
| Cart.IncreaseAt | js/classes.js:162-164 | an in-range line gains one, all else unchanged; out of range is a no-op |
| Cart.DecreaseAt | js/classes.js:171-178 | a line above 1 loses one; a line at 1 or below is removed as by `RemoveAt`; out of range is a no-op |
| Cart.Total | js/classes.js:185-187 | `calculateTotal()`, the left-to-right sum of line totals from 0; its properties are the `*Totals` lemmas and `Cart.TotalNonNegative` |
| Cart.ItemCount | js/classes.js:190-192 | `getItemCount()`, the left-to-right sum of quantities from 0; see `Cart.ItemCountZeroIffEmpty` |
| Cart.EmptyTotals | js/classes.js:185-192 | an empty cart totals 0 and counts 0 |
| Cart.TotalNonNegative | js/classes.js:185-187 | with positive quantities and non-negative prices, the total is non-negative |
| Cart.TotalsAppend | js/classes.js:185-192 | total and count of a concatenation are the sums of the parts |
| Cart.AddLineTotals | js/classes.js:133-149 | adding raises the count by `qty` and the total by `qty` times the matched line's price (or the new item's) |
| Cart.RemoveAtTotals | js/classes.js:152-159 | removing a line lowers total and count by exactly that line's |
| Cart.IncreaseAtTotals | js/classes.js:162-168 | one more of a line adds its price to the total and 1 to the count |
| Cart.DecreaseAtTotals | js/classes.js:171-182 | above 1, one fewer lowers the total by the price and the count by 1; at 1 or below, removal lowers them by the line's total and quantity, which for a positive line is again the price and 1 |
| Cart.ItemCountZeroIffEmpty | js/classes.js:190-192 | with positive quantities the count is at least the number of lines, and 0 exactly for an empty cart |
| Cart.AddTwice | js/classes.js:133-144 | adding the same name with q1 and then q2 leaves one line of q1 + q2 |
| Orders.Load | js/classes.js:109-120 | a stored list gives one line per record; no entry or an unreadable one gives the empty cart |
| Orders.ReloadAfterSave | js/classes.js:109-130 | a later page loading the saved entry gets the same lines, total and count |
| Orders.OrderManager.constructor | js/classes.js:104-106 | a new manager holds what the store held, or nothing |
| Orders.OrderManager.SaveToStorage | js/classes.js:123-130 | the store holds the serialised lines, or keeps its old value when writes fail |
| Orders.OrderManager.AddItem | js/classes.js:133-149 | the lines become `AddLine(old, item, qty)`, are saved, and the toast is "Item added to cart!" |
| Orders.OrderManager.RemoveItem | js/classes.js:152-159 | the lines become `RemoveAt`; only an in-range index saves and shows "Item removed from cart" |
| Orders.OrderManager.IncreaseQuantity | js/classes.js:162-168 | the lines become `IncreaseAt`; only an in-range index saves |
| Orders.OrderManager.DecreaseQuantity | js/classes.js:171-182 | the lines become `DecreaseAt`; the removal toast appears exactly when a line at 1 is removed |
| Orders.OrderManager.GetItems | js/classes.js:207-209 | the current lines (as a value; see Left out) |
| Orders.OrderManager.ClearOrder | js/classes.js:200-204 | the cart is empty and saved |
| Orders.OrderManager.CalculateTotal | js/classes.js:185-187 | 0 for an empty cart; non-negative for positive quantities and prices |
| Orders.OrderManager.GetItemCount | js/classes.js:190-192 | 0 exactly for an empty cart under positive quantities, and at least the number of lines |
| Orders.OrderManager.GetUniqueItemCount | js/classes.js:195-197 | the number of lines, never more than the item count under positive quantities |
| Catalog.Flatten | js/classes.js:290-295 | the categories laid end to end, each at its offset |
| Catalog.WithDefaults | js/classes.js:298-306 | a missing rating or calories is filled, a present one kept, and nothing else changes |
| Catalog.Normalized | js/classes.js:298-306 | every entry gets its defaults in place |
| Catalog.NormalizeInPlace | js/classes.js:298-306 | the array afterwards is the normalised old array |
| Catalog.AllMenuItems | js/classes.js:290-306 | `allMenuItems` after the defaulting loop; `Catalog.CatalogOrder` and `Catalog.CatalogDefaults` state its contents |
| Catalog.FlattenNormalized | js/classes.js:290-306 | normalising each category and then flattening is normalising the flat list |
| Catalog.SharedEntries | js/classes.js:290-306 | the categories after the defaulting loop lay out to exactly `allMenuItems` |
| Catalog.AppetizersSection | js/classes.js:254-260 | five appetizers, all food filed under "appetizers" |
| Catalog.MainDishesSection | js/classes.js:261-269 | seven main dishes, all food filed under "mainDishes" |
| Catalog.DrinksSection | js/classes.js:270-278 | seven drinks, all DrinkItems filed under "drinks" |
| Catalog.DessertsSection | js/classes.js:279-286 | six desserts, all food filed under "desserts" |
| Catalog.FlatPosition | js/classes.js:290-295 | 25 ids; which category entry each id lands on |
| Catalog.CatalogOrder | js/classes.js:253-295 | ids 0-4, 5-11, 12-18 and 19-24 are the four categories, and only 12-18 are drinks |
| Catalog.NormalizedDefaults | js/classes.js:298-306 | rating 4.2 for drinks and 4.6 otherwise; calories from truthy `nutrition.calories`, else 150 or 450 |
| Catalog.CatalogDefaults | js/classes.js:297-306 | every catalogue entry after loading has those defaults |
| ItemPage.IdOf | js/item.js:51 | `parseInt(params.get('id'))`, with a missing parameter read as "null"; see `ItemPage.MissingIdIsNaN` and `ItemPage.LinkResolves` |
| ItemPage.MissingIdIsNaN | js/item.js:50-51 | a missing `id` parameter parses to NaN |
| ItemPage.Resolve | js/item.js:50-59 | the details page shows exactly for a parsed id with an entry there, and shows that entry |
| ItemPage.IndexOf | js/menu.js:13 | the first position of the item, or -1 exactly when absent |
| ItemPage.LinkResolves | js/menu.js:13 | the id the menu puts in an item's link opens that item's page |
| ItemPage.MenuLinkResolves | js/menu.js:10-13 | the link the menu page builds for any entry it renders opens a page showing that entry |
| ItemPage.DisplayedCalories | js/item.js:79 | the nutrition value if present, else the item's calories, else "N/A" |
| ItemPage.ZeroCaloriesDisagree | js/classes.js:303-305 | for a zero calorie fact the stored default differs from the 0 the page shows |
| ItemPage.CaloriesAgree | js/item.js:79 | for a non-zero calorie fact the page shows the stored calories |
| ItemPage.NormalQuantity | js/item.js:116-121 | at least 1; 1 without an input field; the parsed input when it is at least 1, else 1 |
| ItemPage.NormalQuantityOfPrinted | js/item.js:119-120 | a field holding a printed integer n gives n when n is at least 1, and 1 otherwise |
| ItemPage.QuantityFromInput | js/item.js:117-122 | the handler's steps compute `NormalQuantity` of the input |
| ItemPage.AddToOrder | js/item.js:115-123 | adds `NormalQuantity` of the input to the cart as `AddLine` does, saves, shows "Item added to cart!", and keeps positive quantities and unique names |
| Text.ParseInt | js/item.js:51 | `parseInt` without a radix; `Text.ParseIntOfIntToString` states that it inverts integer printing |
| Text.ParseIntOfIntToString | js/item.js:51 | `parseInt` of a printed integer gives the integer back |
| Text.SplitJoin | js/checkout.js:95-97 | splitting a newline-joined list of one-line parts gives the parts back |
| Checkout.Rows | js/checkout.js:36-57 | one row per line with its display, line total, quantity and index |
| Checkout.Display | js/checkout.js:13-34 | an empty cart shows the empty notice and "0 EGP" twice; otherwise subtotal and subtotal + 15 |
| Checkout.DisplayedTotals | js/checkout.js:15-34 | the empty total is not the delivery fee; a shown total reads back as subtotal + 15 |
| Checkout.GrandTotal | js/checkout.js:89-91 | subtotal plus the delivery fee of 15; see `Checkout.DisplayedTotals` and `Checkout.MessageMatchesDisplay` |
| Checkout.SummaryLine | js/checkout.js:95-97 | "<qty>x <name> - <line total> EGP"; `Checkout.SummaryHasOneLinePerLine` and `Checkout.FooterLayout` state where it appears |
| Checkout.OrderSummary | js/checkout.js:95-97 | the summary lines joined by newlines; `Checkout.SummaryHasOneLinePerLine` states that it splits back |
| Checkout.OrderMessage | js/checkout.js:99-109 | the confirmation text; `Checkout.MessageIsJoin`, `Checkout.MessageReadsAsLines` and `Checkout.MessageLayout` state its lines |
| Checkout.SummaryLines | js/checkout.js:95-97 | one summary line per cart line, in cart order |
| Checkout.SummaryHasOneLinePerLine | js/checkout.js:95-97 | the summary splits back into exactly one line per cart line |
| Checkout.HeaderIsTerminated | js/checkout.js:99-102 | the heading and customer part is five newline-ended lines |
| Checkout.FooterIsJoin | js/checkout.js:105-109 | the details part is its lines joined by newlines |
| Checkout.MessageIsJoin | js/checkout.js:99-109 | the whole message is its lines joined by newlines |
| Checkout.MessageReadsAsLines | js/checkout.js:99-109 | with one-line fields and names, splitting the message gives exactly its lines |
| Checkout.MessageLayout | js/checkout.js:99-109 | heading, customer lines, then an optional-field line only for each filled field, then the details |
| Checkout.FooterLayout | js/checkout.js:105-109 | "Order Details:", the summary lines, subtotal, delivery 15 and total in that order |
| Checkout.MessageMatchesDisplay | js/checkout.js:89-91 | the message's subtotal and total are the texts the cart view shows |
| Checkout.PlaceOrder | js/checkout.js:63-118 | an empty cart or an invalid form is rejected with its toast and changes nothing; otherwise the message describes the old cart, which is emptied and saved |
| Scenarios.OrderedEntries | js/classes.js:262-274 | Koshari is 60, Shawarma 120 and Tea 20 on the menu |
| Scenarios.KoshariTwice | js/classes.js:133-149 | Koshari once and then twice more is one line of 3 totalling 180 |
| Scenarios.ShawarmaAndTea | js/checkout.js:29-34 | Shawarma and Tea total 140 and display 155 with delivery |
| Scenarios.FreshCart | js/classes.js:104-120 | a page with nothing readable stored starts with no lines, total 0 and count 0 |
| Scenarios.UntaggedRecord | js/classes.js:36-43 | a stored line without a type comes back as a plain item with its fields |
| Scenarios.TypedQuantities | js/item.js:119-120 | typing 3 adds 3; typing 0 or -2 adds 1 |
| Scenarios.AddThree | js/item.js:115-123 | typing 3 on the page of an item not yet in the cart appends one line of quantity 3 |

## Left out

- Rendering. The DOM, the navbar badge, scroll effects, the mobile menu, the star rendering and the team and newsletter pages are presentation with no state of the cart in them. Toasts are returned as values; their icons and the 3.5 s timer are not modelled.
- JSON and browser storage. `JSON.stringify` and `JSON.parse` are not modelled: the storage entry is a `Slot` holding the records directly, and for an entry that does not parse, `Unreadable` stands in.
- Records with missing `name`, `price` or `image` are not modelled: those fields are required in `ItemRecord`, because `fromJSON` would build an item holding `undefined`.
- A store that rejects writes intermittently is not modelled; `writable` is fixed for the life of the manager.
- Numbers are integers (prices, quantities) and reals (nutrition). Floating-point rounding, `2^53` and quantities that are not integers after a load are not modelled.
- The rating is kept in tenths of a star (42, 46) rather than as a float.
- Catalog: that the 25 names are pairwise distinct is not proved (the proof over the literal menu exceeds the solver budget). Consequently `UniqueNames` of a cart holds only as an invariant of `AddLine`.
- ItemPage.IndexOf: compares items by value, where `indexOf` compares object identity. The two give the same position when no two catalogue entries are equal, which is not proved (see the names above); either way the page opened shows an entry equal to the one linked, as `ItemPage.MenuLinkResolves` states.
- Orders.OrderManager.GetItems: returns the lines as a value. The source hands out its private array, so callers could mutate it; that aliasing is not modelled.
- Checkout.PlaceOrder: form validity (`form.checkValidity()`, and whether the form exists) is a boolean input. `form.reset()` and the `alert` dialog are not modelled; the message is returned instead.
- Checkout.Customer: `FormData.get` returning `null` for a missing field is not modelled; every field is a string.
- Checkout.MessageReadsAsLines: requires that no field and no item name contains a newline. With one, the message reads as more lines than intended.
