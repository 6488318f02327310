/**
 * Cart lines (`CartItem`) and the pure side of the order model: the edits
 * `OrderManager` applies to its line sequence, the `reduce` totals, and the
 * storage records the sequence is saved as.
 */
module Cart {
  import opened Wrappers
  import opened Items

  /** One line of the cart. The stored quantity is trusted on load, so it is any integer. */
  datatype CartLine = CartLine(item: MenuItem, quantity: int)

  /** `getTotalPrice()`. */
  function LineTotal(line: CartLine): int {
    line.item.price * line.quantity
  }

  /** The record `CartItem.toJSON` writes. */
  datatype LineRecord = LineRecord(item: ItemRecord, quantity: int)

  /** `CartItem.toJSON()`. */
  function LineToRecord(line: CartLine): LineRecord {
    LineRecord(ToRecord(line.item), line.quantity)
  }

  /** `CartItem.fromJSON(data)`, which keeps the stored quantity as it is. */
  function LineFromRecord(r: LineRecord): CartLine {
    CartLine(FromRecord(r.item), r.quantity)
  }

  /** `items.map(item => item.toJSON())`. */
  function Serialize(lines: seq<CartLine>): (rs: seq<LineRecord>)
    ensures |rs| == |lines|
    ensures forall i :: 0 <= i < |lines| ==> rs[i] == LineToRecord(lines[i])
  {
    seq(|lines|, i requires 0 <= i < |lines| => LineToRecord(lines[i]))
  }

  /** `data.map(item => CartItem.fromJSON(item))`. */
  function Deserialize(rs: seq<LineRecord>): (lines: seq<CartLine>)
    ensures |lines| == |rs|
    ensures forall i :: 0 <= i < |rs| ==> lines[i] == LineFromRecord(rs[i])
  {
    seq(|rs|, i requires 0 <= i < |rs| => LineFromRecord(rs[i]))
  }

  /** The lines as they read back from storage: rating and calories are not stored. */
  function StoredLines(lines: seq<CartLine>): (r: seq<CartLine>)
    ensures |r| == |lines|
    ensures forall i :: 0 <= i < |lines| ==>
      r[i].item == Stored(lines[i].item) && r[i].quantity == lines[i].quantity
  {
    seq(|lines|, i requires 0 <= i < |lines| => CartLine(Stored(lines[i].item), lines[i].quantity))
  }

  /** Loading what was saved gives every line back with the same kind, fields and quantity. */
  lemma {:induction false} LinesRoundTrip(lines: seq<CartLine>)
    ensures Deserialize(Serialize(lines)) == StoredLines(lines)
  {
    var back := Deserialize(Serialize(lines));
    forall i | 0 <= i < |lines|
      ensures back[i] == StoredLines(lines)[i]
    {
      ItemRoundTrip(lines[i].item);
    }
  }

  predicate HasName(lines: seq<CartLine>, name: string) {
    exists i :: 0 <= i < |lines| && lines[i].item.name == name
  }

  /** At most one line per item name. */
  predicate UniqueNames(lines: seq<CartLine>) {
    forall i, j :: 0 <= i < j < |lines| ==> lines[i].item.name != lines[j].item.name
  }

  /** Every quantity is at least 1. */
  predicate AllPositive(lines: seq<CartLine>) {
    forall i :: 0 <= i < |lines| ==> lines[i].quantity >= 1
  }

  /** Reading the saved lines keeps names and quantities, so both invariants survive a reload. */
  lemma StoredLinesKeepInvariants(lines: seq<CartLine>)
    ensures UniqueNames(lines) <==> UniqueNames(Deserialize(Serialize(lines)))
    ensures AllPositive(lines) <==> AllPositive(Deserialize(Serialize(lines)))
  {
    LinesRoundTrip(lines);
  }

  /** `findIndex(cartItem => cartItem.item.name === name)`. */
  function FindByName(lines: seq<CartLine>, name: string): (k: int)
    ensures -1 <= k < |lines|
    ensures k == -1 <==> !HasName(lines, name)
    ensures k >= 0 ==> lines[k].item.name == name
    ensures k >= 0 ==> forall i :: 0 <= i < k ==> lines[i].item.name != name
    decreases |lines|
  {
    if |lines| == 0 then -1
    else if lines[0].item.name == name then 0
    else
      var k := FindByName(lines[1..], name);
      if k == -1 then -1 else k + 1
  }

  /** In a cart with unique names, the line found is the only one with that name. */
  lemma FindByNameUnique(lines: seq<CartLine>, name: string, i: int)
    requires UniqueNames(lines)
    requires 0 <= i < |lines| && lines[i].item.name == name
    ensures FindByName(lines, name) == i
  {
  }

  /** The state `addItem(item, qty)` leaves: merge into the line with that name, or append one. */
  function AddLine(lines: seq<CartLine>, item: MenuItem, qty: int): (r: seq<CartLine>)
    ensures HasName(lines, item.name) ==> |r| == |lines|
    ensures !HasName(lines, item.name) ==> |r| == |lines| + 1 && r[|lines|] == CartLine(item, qty)
    ensures forall i :: 0 <= i < |lines| ==> r[i].item == lines[i].item
    ensures forall i :: 0 <= i < |lines| && i != FindByName(lines, item.name) ==> r[i] == lines[i]
    ensures HasName(lines, item.name) ==>
      var k := FindByName(lines, item.name);
      r[k].quantity == lines[k].quantity + qty
    ensures UniqueNames(lines) ==> UniqueNames(r)
    ensures AllPositive(lines) && qty >= 1 ==> AllPositive(r)
  {
    var k := FindByName(lines, item.name);
    if k != -1 then Bump(lines, k, qty) else lines + [CartLine(item, qty)]
  }

  predicate InRange(lines: seq<CartLine>, index: int) {
    0 <= index < |lines|
  }

  /** The state `removeItem(index)` leaves: the line is cut out and later lines move down. */
  function RemoveAt(lines: seq<CartLine>, index: int): (r: seq<CartLine>)
    ensures !InRange(lines, index) ==> r == lines
    ensures InRange(lines, index) ==> |r| == |lines| - 1
    ensures InRange(lines, index) ==>
      (forall i :: 0 <= i < index ==> r[i] == lines[i]) &&
      (forall i :: index <= i < |r| ==> r[i] == lines[i + 1])
    ensures UniqueNames(lines) ==> UniqueNames(r)
    ensures AllPositive(lines) ==> AllPositive(r)
  {
    if InRange(lines, index) then lines[..index] + lines[index + 1..] else lines
  }

  /** The state `increaseQuantity(index)` leaves. */
  function IncreaseAt(lines: seq<CartLine>, index: int): (r: seq<CartLine>)
    ensures |r| == |lines|
    ensures !InRange(lines, index) ==> r == lines
    ensures forall i :: 0 <= i < |lines| ==> r[i].item == lines[i].item
    ensures forall i :: 0 <= i < |lines| && i != index ==> r[i] == lines[i]
    ensures InRange(lines, index) ==> r[index].quantity == lines[index].quantity + 1
    ensures UniqueNames(lines) ==> UniqueNames(r)
    ensures AllPositive(lines) ==> AllPositive(r)
  {
    if InRange(lines, index) then Bump(lines, index, 1) else lines
  }

  /** The state `decreaseQuantity(index)` leaves: a line at quantity 1 or less is removed instead. */
  function DecreaseAt(lines: seq<CartLine>, index: int): (r: seq<CartLine>)
    ensures !InRange(lines, index) ==> r == lines
    ensures InRange(lines, index) && lines[index].quantity > 1 ==>
      |r| == |lines| && r[index].quantity == lines[index].quantity - 1 &&
      r[index].item == lines[index].item &&
      forall i :: 0 <= i < |lines| && i != index ==> r[i] == lines[i]
    ensures InRange(lines, index) && lines[index].quantity <= 1 ==> r == RemoveAt(lines, index)
    ensures UniqueNames(lines) ==> UniqueNames(r)
    ensures AllPositive(lines) ==> AllPositive(r)
  {
    if !InRange(lines, index) then lines
    else if lines[index].quantity > 1 then Bump(lines, index, -1)
    else RemoveAt(lines, index)
  }

  /** `reduce((acc, x) => acc + x, 0)` over a list of numbers. */
  function Sum(xs: seq<int>): int
    decreases |xs|
  {
    if |xs| == 0 then 0 else Sum(xs[..|xs| - 1]) + xs[|xs| - 1]
  }

  lemma {:induction false} SumAppend(a: seq<int>, b: seq<int>)
    ensures Sum(a + b) == Sum(a) + Sum(b)
    decreases |b|
  {
    if |b| > 0 {
      assert (a + b)[..|a + b| - 1] == a + b[..|b| - 1];
      SumAppend(a, b[..|b| - 1]);
    } else {
      assert a + b == a;
    }
  }

  lemma SumSingle(x: int)
    ensures Sum([x]) == x
  {
    assert [x][..0] == [];
  }

  /** The sum of a list cut around position `k`. */
  lemma SumAround(xs: seq<int>, k: int)
    requires 0 <= k < |xs|
    ensures Sum(xs) == Sum(xs[..k]) + xs[k] + Sum(xs[k + 1..])
  {
    assert xs == xs[..k] + [xs[k]] + xs[k + 1..];
    SumAppend(xs[..k] + [xs[k]], xs[k + 1..]);
    SumAppend(xs[..k], [xs[k]]);
    assert Sum([xs[k]]) == xs[k] by {
      assert [xs[k]][..0] == [];
    }
  }

  /** Replacing one number moves the sum by the difference. */
  lemma SumUpdate(xs: seq<int>, k: int, v: int)
    requires 0 <= k < |xs|
    ensures Sum(xs[k := v]) == Sum(xs) - xs[k] + v
  {
    SumAround(xs, k);
    SumAround(xs[k := v], k);
    assert xs[k := v][..k] == xs[..k] && xs[k := v][k + 1..] == xs[k + 1..];
  }

  /** Dropping one number takes it off the sum. */
  lemma SumRemove(xs: seq<int>, k: int)
    requires 0 <= k < |xs|
    ensures Sum(xs[..k] + xs[k + 1..]) == Sum(xs) - xs[k]
  {
    SumAround(xs, k);
    SumAppend(xs[..k], xs[k + 1..]);
  }

  /** Every line's `getTotalPrice()`, in cart order. */
  function LineTotals(lines: seq<CartLine>): (ts: seq<int>)
    ensures |ts| == |lines|
    ensures forall i :: 0 <= i < |lines| ==> ts[i] == LineTotal(lines[i])
  {
    seq(|lines|, i requires 0 <= i < |lines| => LineTotal(lines[i]))
  }

  /** Every line's quantity, in cart order. */
  function Quantities(lines: seq<CartLine>): (qs: seq<int>)
    ensures |qs| == |lines|
    ensures forall i :: 0 <= i < |lines| ==> qs[i] == lines[i].quantity
  {
    seq(|lines|, i requires 0 <= i < |lines| => lines[i].quantity)
  }

  /** `calculateTotal()`: the `reduce` of line totals, left to right from 0. */
  function Total(lines: seq<CartLine>): int {
    Sum(LineTotals(lines))
  }

  /** `getItemCount()`: the `reduce` of quantities, left to right from 0. */
  function ItemCount(lines: seq<CartLine>): int {
    Sum(Quantities(lines))
  }

  /** Both sums are 0 for an empty cart. */
  lemma EmptyTotals()
    ensures Total([]) == 0 && ItemCount([]) == 0
  {
    assert LineTotals([]) == [] && Quantities([]) == [];
  }

  lemma {:induction false} SumAtLeastLength(xs: seq<int>)
    requires forall i :: 0 <= i < |xs| ==> xs[i] >= 1
    ensures Sum(xs) >= |xs|
    decreases |xs|
  {
    if |xs| > 0 {
      SumAtLeastLength(xs[..|xs| - 1]);
    }
  }

  lemma {:induction false} SumNonNegative(xs: seq<int>)
    requires forall i :: 0 <= i < |xs| ==> xs[i] >= 0
    ensures Sum(xs) >= 0
    decreases |xs|
  {
    if |xs| > 0 {
      SumNonNegative(xs[..|xs| - 1]);
    }
  }

  /** With non-negative prices and positive quantities the cart total is never negative. */
  lemma TotalNonNegative(lines: seq<CartLine>)
    requires AllPositive(lines)
    requires forall i :: 0 <= i < |lines| ==> lines[i].item.price >= 0
    ensures Total(lines) >= 0
  {
    SumNonNegative(LineTotals(lines));
  }

  /** The total of a cart is the sum of the totals of any split of it; likewise the item count. */
  lemma TotalsAppend(a: seq<CartLine>, b: seq<CartLine>)
    ensures Total(a + b) == Total(a) + Total(b)
    ensures ItemCount(a + b) == ItemCount(a) + ItemCount(b)
  {
    assert LineTotals(a + b) == LineTotals(a) + LineTotals(b);
    assert Quantities(a + b) == Quantities(a) + Quantities(b);
    SumAppend(LineTotals(a), LineTotals(b));
    SumAppend(Quantities(a), Quantities(b));
  }

  /** The lines with the quantity of line `k` moved by `delta`. */
  function Bump(lines: seq<CartLine>, k: int, delta: int): (r: seq<CartLine>)
    requires 0 <= k < |lines|
    ensures |r| == |lines|
    ensures r[k] == CartLine(lines[k].item, lines[k].quantity + delta)
    ensures forall i :: 0 <= i < |lines| && i != k ==> r[i] == lines[i]
  {
    lines[k := CartLine(lines[k].item, lines[k].quantity + delta)]
  }

  /** Moving one line's quantity by `delta` moves the total by its price times `delta` and the count by `delta`. */
  lemma BumpTotals(lines: seq<CartLine>, k: int, delta: int)
    requires 0 <= k < |lines|
    ensures Total(Bump(lines, k, delta)) == Total(lines) + lines[k].item.price * delta
    ensures ItemCount(Bump(lines, k, delta)) == ItemCount(lines) + delta
  {
    var r := Bump(lines, k, delta);
    var p, q := lines[k].item.price, lines[k].quantity;
    assert LineTotal(r[k]) == LineTotal(lines[k]) + p * delta by {
      assert p * (q + delta) == p * q + p * delta;
    }
    assert LineTotals(r) == LineTotals(lines)[k := LineTotal(r[k])];
    assert Quantities(r) == Quantities(lines)[k := q + delta];
    SumUpdate(LineTotals(lines), k, LineTotal(r[k]));
    SumUpdate(Quantities(lines), k, q + delta);
  }

  /**
   * `addItem(item, qty)` raises the item count by `qty` and the total by `qty`
   * times the price of the line it lands in (an existing line keeps its own item).
   */
  lemma AddLineTotals(lines: seq<CartLine>, item: MenuItem, qty: int)
    ensures ItemCount(AddLine(lines, item, qty)) == ItemCount(lines) + qty
    ensures var k := FindByName(lines, item.name);
      Total(AddLine(lines, item, qty)) ==
        Total(lines) + (if k >= 0 then lines[k].item.price else item.price) * qty
  {
    var k := FindByName(lines, item.name);
    var r := AddLine(lines, item, qty);
    if k >= 0 {
      var p := lines[k].item.price;
      assert Total(r) == Total(lines) + p * qty && ItemCount(r) == ItemCount(lines) + qty by {
        assert r == Bump(lines, k, qty);
        BumpTotals(lines, k, qty);
      }
    } else {
      assert Total(r) == Total(lines) + item.price * qty && ItemCount(r) == ItemCount(lines) + qty by {
        assert r == lines + [CartLine(item, qty)];
        AppendTotals(lines, CartLine(item, qty));
      }
    }
  }

  /** Appending a line adds its total and its quantity. */
  lemma AppendTotals(lines: seq<CartLine>, line: CartLine)
    ensures Total(lines + [line]) == Total(lines) + LineTotal(line)
    ensures ItemCount(lines + [line]) == ItemCount(lines) + line.quantity
  {
    TotalsAppend(lines, [line]);
    assert LineTotals([line]) == [LineTotal(line)] && Quantities([line]) == [line.quantity];
    SumSingle(LineTotal(line));
    SumSingle(line.quantity);
  }

  /** A two-line cart totals the two line totals. */
  lemma TotalOfTwo(a: CartLine, b: CartLine)
    ensures Total([a, b]) == LineTotal(a) + LineTotal(b)
  {
    assert [a, b] == [a] + [b];
    AppendTotals([a], b);
    AppendTotals([], a);
    EmptyTotals();
    assert [] + [a] == [a];
  }

  /** `removeItem(index)` takes exactly that line's total and quantity off. */
  lemma RemoveAtTotals(lines: seq<CartLine>, index: int)
    requires InRange(lines, index)
    ensures Total(RemoveAt(lines, index)) == Total(lines) - LineTotal(lines[index])
    ensures ItemCount(RemoveAt(lines, index)) == ItemCount(lines) - lines[index].quantity
  {
    var r := RemoveAt(lines, index);
    assert LineTotals(r) == LineTotals(lines)[..index] + LineTotals(lines)[index + 1..];
    assert Quantities(r) == Quantities(lines)[..index] + Quantities(lines)[index + 1..];
    SumRemove(LineTotals(lines), index);
    SumRemove(Quantities(lines), index);
  }

  /** `increaseQuantity(index)` adds one unit: the count by 1, the total by the line's price. */
  lemma IncreaseAtTotals(lines: seq<CartLine>, index: int)
    requires InRange(lines, index)
    ensures Total(IncreaseAt(lines, index)) == Total(lines) + lines[index].item.price
    ensures ItemCount(IncreaseAt(lines, index)) == ItemCount(lines) + 1
  {
    BumpTotals(lines, index, 1);
  }

  /**
   * `decreaseQuantity(index)` takes one unit off a line above 1 and removes a
   * line at 1 or below; on a positive line either way is one unit at its price.
   */
  lemma DecreaseAtTotals(lines: seq<CartLine>, index: int)
    requires InRange(lines, index)
    ensures lines[index].quantity > 1 ==>
      Total(DecreaseAt(lines, index)) == Total(lines) - lines[index].item.price &&
      ItemCount(DecreaseAt(lines, index)) == ItemCount(lines) - 1
    ensures lines[index].quantity <= 1 ==>
      Total(DecreaseAt(lines, index)) == Total(lines) - LineTotal(lines[index]) &&
      ItemCount(DecreaseAt(lines, index)) == ItemCount(lines) - lines[index].quantity
    ensures lines[index].quantity >= 1 ==>
      Total(DecreaseAt(lines, index)) == Total(lines) - lines[index].item.price &&
      ItemCount(DecreaseAt(lines, index)) == ItemCount(lines) - 1
  {
    var line := lines[index];
    if line.quantity > 1 {
      DecreaseAboveOne(lines, index);
    } else {
      DecreaseAtMostOne(lines, index);
      if line.quantity == 1 {
        SingleUnitTotal(line);
      }
    }
  }

  lemma SingleUnitTotal(line: CartLine)
    requires line.quantity == 1
    ensures LineTotal(line) == line.item.price
  {
  }

  lemma DecreaseAboveOne(lines: seq<CartLine>, index: int)
    requires InRange(lines, index) && lines[index].quantity > 1
    ensures Total(DecreaseAt(lines, index)) == Total(lines) - lines[index].item.price
    ensures ItemCount(DecreaseAt(lines, index)) == ItemCount(lines) - 1
  {
    BumpTotals(lines, index, -1);
  }

  lemma DecreaseAtMostOne(lines: seq<CartLine>, index: int)
    requires InRange(lines, index) && lines[index].quantity <= 1
    ensures Total(DecreaseAt(lines, index)) == Total(lines) - LineTotal(lines[index])
    ensures ItemCount(DecreaseAt(lines, index)) == ItemCount(lines) - lines[index].quantity
  {
    RemoveAtTotals(lines, index);
  }

  /** With positive quantities (what the badge relies on), the item count is 0 exactly for an empty cart. */
  lemma ItemCountZeroIffEmpty(lines: seq<CartLine>)
    requires AllPositive(lines)
    ensures ItemCount(lines) == 0 <==> lines == []
    ensures ItemCount(lines) >= |lines|
  {
    SumAtLeastLength(Quantities(lines));
    EmptyTotals();
  }

  /** Adding the same name twice gives one line whose quantity is the sum. */
  lemma AddTwice(lines: seq<CartLine>, item: MenuItem, q1: int, q2: int)
    requires !HasName(lines, item.name)
    ensures var r := AddLine(AddLine(lines, item, q1), item, q2);
      r == lines + [CartLine(item, q1 + q2)]
  {
    var once := AddLine(lines, item, q1);
    assert once == lines + [CartLine(item, q1)];
    assert FindByName(once, item.name) == |lines|;
  }
}
