/**
 * Concrete runs of the cart and the checkout on items of the menu, each
 * starting from a page whose store holds nothing.
 */
module Scenarios {
  import opened Wrappers
  import opened Items
  import opened Cart
  import opened Orders
  import opened Catalog
  import opened Checkout
  import opened Text
  import opened ItemPage

  /** The entries the runs below order. */
  lemma OrderedEntries()
    ensures MAIN_DISHES[0].name == "Koshari" && MAIN_DISHES[0].price == 60
    ensures MAIN_DISHES[1].name == "Shawarma" && MAIN_DISHES[1].price == 120
    ensures DRINKS[3].name == "Tea" && DRINKS[3].price == 20
  {
  }

  /** Koshari (60 EGP) added once, then twice more: one line of three, 180 EGP. */
  method KoshariTwice(koshari: MenuItem) returns (lines: seq<CartLine>, total: int)
    requires koshari.name == "Koshari" && koshari.price == 60
    ensures |lines| == 1 && lines[0].item.name == "Koshari" && lines[0].quantity == 3
    ensures LineTotal(lines[0]) == 180 && total == 180
  {
    var order := new OrderManager(Empty, true);
    var _ := order.AddItem(koshari, 1);
    var _ := order.AddItem(koshari, 2);
    lines := order.GetItems();
    assert lines == [CartLine(koshari, 3)];
    total := order.CalculateTotal();
    assert LineTotals(lines) == [180];
    SumSingle(180);
  }

  /** Shawarma (120) and Tea (20), one each: 140 EGP, shown with delivery as 155 EGP. */
  method ShawarmaAndTea(shawarma: MenuItem, tea: MenuItem) returns (subtotal: int, view: View)
    requires shawarma.name == "Shawarma" && shawarma.price == 120
    requires tea.name == "Tea" && tea.price == 20
    ensures subtotal == 140
    ensures view.subtotalText == Money(140) && view.totalText == Money(155) && |view.rows| == 2
  {
    var order := new OrderManager(Empty, true);
    var _ := order.AddItem(shawarma);
    var first := order.items;
    assert first == [CartLine(shawarma, 1)];
    var _ := order.AddItem(tea);
    assert order.items == [CartLine(shawarma, 1), CartLine(tea, 1)] by {
      assert first[0].item.name != tea.name;
    }
    assert Total(order.items) == 140 by {
      TotalOfTwo(CartLine(shawarma, 1), CartLine(tea, 1));
      SingleUnitTotal(CartLine(shawarma, 1));
      SingleUnitTotal(CartLine(tea, 1));
    }
    subtotal := order.CalculateTotal();
    view := Display(order.GetItems());
  }

  /** A page with nothing stored, or with an unreadable entry, starts with an empty cart. */
  method FreshCart(slot: Slot) returns (lines: seq<CartLine>, total: int, count: int)
    requires !slot.Saved?
    ensures lines == [] && total == 0 && count == 0
  {
    var order := new OrderManager(slot, true);
    lines := order.GetItems();
    total := order.CalculateTotal();
    count := order.GetItemCount();
  }

  /** A stored line whose record has no `type` comes back as a plain item. */
  method UntaggedRecord(name: string, price: int, image: string, quantity: int)
    returns (lines: seq<CartLine>)
    ensures |lines| == 1 && lines[0].item.kind == Base
    ensures lines[0].item.name == name && lines[0].item.price == price && lines[0].quantity == quantity
  {
    var rec := LineRecord(ItemRecord(None, name, price, image, None, None, None), quantity);
    var order := new OrderManager(Saved([rec]), true);
    lines := order.GetItems();
  }

  /** The item page's quantity field: "3" adds 3, while "0" and "-2" fall back to 1. */
  lemma TypedQuantities()
    ensures NormalQuantity(Some("3")) == 3
    ensures NormalQuantity(Some("0")) == 1
    ensures NormalQuantity(Some("-2")) == 1
  {
    assert IntToString(3) == "3" && IntToString(0) == "0" && IntToString(-2) == "-2";
    NormalQuantityOfPrinted(3);
    NormalQuantityOfPrinted(0);
    NormalQuantityOfPrinted(-2);
  }

  /** Typing 3 on a new item's page and clicking "Add to Order" appends one line of 3. */
  method AddThree(order: OrderManager, item: MenuItem) returns (qty: int)
    requires !HasName(order.items, item.name)
    modifies order
    ensures qty == 3
    ensures order.items == old(order.items) + [CartLine(item, 3)]
  {
    TypedQuantities();
    var notice;
    qty, notice := AddToOrder(order, item, Some("3"));
  }
}
