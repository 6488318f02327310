/**
 * `OrderManager`: the cart of one page load. It keeps the lines in add order,
 * reads them once from the browser's store when built, and writes the whole
 * sequence back after every change.
 */
module Orders {
  import opened Wrappers
  import opened Items
  import opened Cart

  /** The store key the cart lives under. */
  const STORAGE_KEY := "cairoBitesCart"

  /**
   * What reading the key yields: nothing (no entry, or an empty string), a value
   * that does not parse as a list of line records, or such a list.
   */
  datatype Slot = Empty | Unreadable | Saved(records: seq<LineRecord>)

  /** `loadFromStorage()`: any failure is caught and leaves the cart empty. */
  function Load(slot: Slot): (lines: seq<CartLine>)
    ensures |lines| == (if slot.Saved? then |slot.records| else 0)
  {
    match slot
    case Saved(records) => Deserialize(records)
    case _ => []
  }

  /** A later page that loads what was saved gets the same lines (without the catalog-only fields). */
  lemma ReloadAfterSave(lines: seq<CartLine>)
    ensures Load(Saved(Serialize(lines))) == StoredLines(lines)
    ensures Total(Load(Saved(Serialize(lines)))) == Total(lines)
    ensures ItemCount(Load(Saved(Serialize(lines)))) == ItemCount(lines)
  {
    LinesRoundTrip(lines);
    var back := StoredLines(lines);
    assert LineTotals(back) == LineTotals(lines);
    assert Quantities(back) == Quantities(lines);
  }

  datatype Severity = Success | Error | Info | Warning

  /** A notification shown by `showToast(message, type)`. */
  datatype Toast = Toast(message: string, severity: Severity)

  const ADDED := Toast("Item added to cart!", Success)
  const REMOVED := Toast("Item removed from cart", Success)

  class OrderManager {
    /** `#items`: the lines in the order they were first added. */
    var items: seq<CartLine>
    /** What the store holds under STORAGE_KEY. */
    var storage: Slot
    /** Whether the store accepts writes; a rejected write is caught and the old value stays. */
    const writable: bool

    /** The store holds the current lines, or, when it rejects writes, what it held before. */
    ghost predicate SavedOver(prev: Slot)
      reads this
    {
      storage == if writable then Saved(Serialize(items)) else prev
    }

    /** `new OrderManager()` on a page whose store holds `slot`. */
    constructor (slot: Slot, writable: bool)
      ensures storage == slot && this.writable == writable
      ensures slot.Saved? ==> items == Deserialize(slot.records)
      ensures !slot.Saved? ==> items == []
    {
      items := Load(slot);
      storage := slot;
      this.writable := writable;
    }

    /** `saveToStorage()`. */
    method SaveToStorage()
      modifies this`storage
      ensures SavedOver(old(storage))
    {
      if writable {
        storage := Saved(Serialize(items));
      }
    }

    /** `addItem(item, qty = 1)`: the quantity is used as given. */
    method AddItem(item: MenuItem, qty: int := 1) returns (notice: Toast)
      modifies this
      ensures items == AddLine(old(items), item, qty)
      ensures SavedOver(old(storage))
      ensures notice == ADDED
    {
      var k := FindByName(items, item.name);
      if k != -1 {
        items := items[k := CartLine(items[k].item, items[k].quantity + qty)];
      } else {
        items := items + [CartLine(item, qty)];
      }
      SaveToStorage();
      notice := ADDED;
    }

    /** `removeItem(index)`: an index outside the cart changes nothing and shows nothing. */
    method RemoveItem(index: int) returns (notice: Option<Toast>)
      modifies this
      ensures items == RemoveAt(old(items), index)
      ensures InRange(old(items), index) ==> SavedOver(old(storage)) && notice == Some(REMOVED)
      ensures !InRange(old(items), index) ==> storage == old(storage) && notice == None
    {
      notice := None;
      if 0 <= index < |items| {
        items := items[..index] + items[index + 1..];
        SaveToStorage();
        notice := Some(REMOVED);
      }
    }

    /** `increaseQuantity(index)`. */
    method IncreaseQuantity(index: int)
      modifies this
      ensures items == IncreaseAt(old(items), index)
      ensures InRange(old(items), index) ==> SavedOver(old(storage))
      ensures !InRange(old(items), index) ==> storage == old(storage)
    {
      if 0 <= index < |items| {
        items := items[index := items[index].(quantity := items[index].quantity + 1)];
        SaveToStorage();
      }
    }

    /** `decreaseQuantity(index)`: at quantity 1 (or less) it is `removeItem(index)`, toast included. */
    method DecreaseQuantity(index: int) returns (notice: Option<Toast>)
      modifies this
      ensures items == DecreaseAt(old(items), index)
      ensures InRange(old(items), index) ==> SavedOver(old(storage))
      ensures !InRange(old(items), index) ==> storage == old(storage)
      ensures notice == if InRange(old(items), index) && old(items)[index].quantity <= 1
                        then Some(REMOVED) else None
    {
      notice := None;
      if 0 <= index < |items| {
        if items[index].quantity > 1 {
          items := items[index := items[index].(quantity := items[index].quantity - 1)];
        } else {
          notice := RemoveItem(index);
          return;
        }
        SaveToStorage();
      }
    }

    /** `clearOrder()`. */
    method ClearOrder()
      modifies this
      ensures items == []
      ensures SavedOver(old(storage))
    {
      items := [];
      SaveToStorage();
    }

    /** `calculateTotal()`. */
    function CalculateTotal(): (t: int)
      reads this
      ensures items == [] ==> t == 0
      ensures AllPositive(items) && (forall i :: 0 <= i < |items| ==> items[i].item.price >= 0) ==> t >= 0
    {
      EmptyTotals();
      if AllPositive(items) && (forall i :: 0 <= i < |items| ==> items[i].item.price >= 0) then
        TotalNonNegative(items);
        Total(items)
      else
        Total(items)
    }

    /** `getItemCount()`, the number the cart badge shows. */
    function GetItemCount(): (n: int)
      reads this
      ensures items == [] ==> n == 0
      ensures AllPositive(items) ==> (n == 0 <==> items == []) && n >= |items|
    {
      EmptyTotals();
      if AllPositive(items) then
        ItemCountZeroIffEmpty(items);
        ItemCount(items)
      else
        ItemCount(items)
    }

    /** `getUniqueItemCount()`: one per line, never more than the item count when quantities are positive. */
    function GetUniqueItemCount(): (n: nat)
      reads this
      ensures n == |items|
      ensures AllPositive(items) ==> n <= ItemCount(items)
    {
      if AllPositive(items) then
        ItemCountZeroIffEmpty(items);
        |items|
      else
        |items|
    }

    /** `getItems()`. */
    function GetItems(): seq<CartLine>
      reads this
    {
      items
    }
  }
}
