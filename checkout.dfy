/**
 * The checkout page: the totals it displays, and the "Place Order" handler that
 * validates, builds the confirmation message and empties the cart.
 */
module Checkout {
  import opened Wrappers
  import opened Text
  import opened Items
  import opened Cart
  import opened Orders

  const DELIVERY_FEE := 15

  /** An amount as the page prints it. */
  function Money(n: int): string {
    IntToString(n) + " EGP"
  }

  /** The grand total the page and the confirmation message use. */
  function GrandTotal(lines: seq<CartLine>): int {
    Total(lines) + DELIVERY_FEE
  }

  /** One rendered cart row; its buttons act on line `index`. */
  datatype Row = Row(info: string, priceText: string, quantity: int, index: int)

  /** What `updateCartDisplay()` puts on the page. */
  datatype View = View(emptyNotice: bool, subtotalText: string, totalText: string, rows: seq<Row>)

  function Rows(lines: seq<CartLine>): (rows: seq<Row>)
    ensures |rows| == |lines|
    ensures forall i :: 0 <= i < |lines| ==>
      rows[i] == Row(DisplayInfo(lines[i].item), Money(LineTotal(lines[i])), lines[i].quantity, i)
  {
    seq(|lines|, i requires 0 <= i < |lines| =>
      Row(DisplayInfo(lines[i].item), Money(LineTotal(lines[i])), lines[i].quantity, i))
  }

  /** `updateCartDisplay()`: an empty cart shows 0 for both amounts, with no delivery fee added. */
  function Display(lines: seq<CartLine>): (v: View)
    ensures v.emptyNotice <==> lines == []
    ensures lines == [] ==> v.subtotalText == "0 EGP" && v.totalText == "0 EGP" && v.rows == []
    ensures lines != [] ==> v.subtotalText == Money(Total(lines)) && v.totalText == Money(GrandTotal(lines))
    ensures lines != [] ==> v.rows == Rows(lines)
  {
    if |lines| == 0 then View(true, "0 EGP", "0 EGP", [])
    else View(false, Money(Total(lines)), Money(Total(lines) + DELIVERY_FEE), Rows(lines))
  }

  /** The empty cart's total is not the delivery fee, and a filled cart's total reads back as subtotal plus 15. */
  lemma DisplayedTotals(lines: seq<CartLine>)
    ensures lines == [] ==> Display(lines).totalText != Money(DELIVERY_FEE)
    ensures lines != [] ==> ParseInt(IntToString(GrandTotal(lines))) == Some(Total(lines) + 15)
  {
    if lines == [] {
      var digits := NatToString(DELIVERY_FEE);
      assert |digits| > 1 by {
        assert digits == NatToString(DELIVERY_FEE / 10) + [DigitChar(DELIVERY_FEE % 10)];
      }
      assert Money(DELIVERY_FEE)[0] == digits[0] != '0';
    } else {
      ParseIntOfIntToString(GrandTotal(lines));
    }
  }

  /** One line of the order summary: `"<qty>x <name> - <qty*price> EGP"`. */
  function SummaryLine(line: CartLine): string {
    IntToString(line.quantity) + "x " + line.item.name + " - " + Money(LineTotal(line))
  }

  function SummaryLines(lines: seq<CartLine>): (r: seq<string>)
    ensures |r| == |lines|
    ensures forall i :: 0 <= i < |lines| ==> r[i] == SummaryLine(lines[i])
  {
    seq(|lines|, i requires 0 <= i < |lines| => SummaryLine(lines[i]))
  }

  /** `items.map(...).join('\n')`. */
  function OrderSummary(lines: seq<CartLine>): string {
    Join(SummaryLines(lines), '\n')
  }

  predicate OneLine(s: string) {
    '\n' !in s
  }

  predicate NamesOnOneLine(lines: seq<CartLine>) {
    forall i :: 0 <= i < |lines| ==> OneLine(lines[i].item.name)
  }

  lemma IntToStringOneLine(n: int)
    ensures OneLine(IntToString(n))
  {
  }

  lemma SummaryLineOneLine(line: CartLine)
    requires OneLine(line.item.name)
    ensures OneLine(SummaryLine(line))
  {
    IntToStringOneLine(line.quantity);
    IntToStringOneLine(LineTotal(line));
  }

  /** The summary has exactly one line per cart line, in cart order. */
  lemma SummaryHasOneLinePerLine(lines: seq<CartLine>)
    requires lines != [] && NamesOnOneLine(lines)
    ensures Split(OrderSummary(lines), '\n') == SummaryLines(lines)
    ensures |Split(OrderSummary(lines), '\n')| == |lines|
  {
    forall i | 0 <= i < |lines| ensures '\n' !in SummaryLines(lines)[i] {
      SummaryLineOneLine(lines[i]);
    }
    SplitJoin(SummaryLines(lines), '\n');
  }

  /** The delivery form's fields, as `FormData` returns them. */
  datatype Customer = Customer(name: string, phone: string, address: string, deliveryTime: string, instructions: string)

  /** `value ? `${caption}${value}\n` : ''`: a line only for a non-empty field. */
  function OptionalLine(caption: string, value: string): string {
    if value == "" then "" else caption + value + "\n"
  }

  /**
   * The heading as the source file spells it: the party-popper emoji's UTF-8
   * bytes read as Windows-1252, so the alert shows these four characters.
   */
  const HEADING := "Order Placed Successfully! \U{00F0}\U{0178}\U{017D}\U{2030}"
  const THANKS := "Thank you for your order!"

  /** The heading, a blank line, and the customer's name, phone and address, each line ended. */
  function Header(c: Customer): string {
    HEADING + "\n" + "\n" +
    "Customer: " + c.name + "\n" +
    "Phone: " + c.phone + "\n" +
    "Address: " + c.address + "\n"
  }

  /** From the blank line before "Order Details:" to the closing thanks. */
  function Footer(summary: string, subtotal: int, total: int): string {
    "\n" + "Order Details:" + "\n" + summary + "\n" + "\n" +
    "Subtotal: " + Money(subtotal) + "\n" +
    "Delivery: " + Money(DELIVERY_FEE) + "\n" +
    "Total: " + Money(total) + "\n" + "\n" +
    THANKS
  }

  /** The confirmation message shown before the cart is cleared. */
  function OrderMessage(c: Customer, lines: seq<CartLine>): string {
    var subtotal := Total(lines);
    Header(c) +
    OptionalLine("Delivery Time: ", c.deliveryTime) +
    OptionalLine("Instructions: ", c.instructions) +
    Footer(OrderSummary(lines), subtotal, subtotal + DELIVERY_FEE)
  }

  function HeaderLines(c: Customer): seq<string> {
    [HEADING, "", "Customer: " + c.name, "Phone: " + c.phone, "Address: " + c.address]
  }

  function OptionalLines(caption: string, value: string): seq<string> {
    if value == "" then [] else [caption + value]
  }

  function FooterLines(lines: seq<CartLine>): seq<string> {
    ["", "Order Details:"] + SummaryLines(lines) +
    ["", "Subtotal: " + Money(Total(lines)), "Delivery: " + Money(DELIVERY_FEE),
     "Total: " + Money(GrandTotal(lines)), "", THANKS]
  }

  /** The lines of the confirmation message, as a reader sees them. */
  function MessageLines(c: Customer, lines: seq<CartLine>): seq<string> {
    HeaderLines(c) +
    OptionalLines("Delivery Time: ", c.deliveryTime) +
    OptionalLines("Instructions: ", c.instructions) +
    FooterLines(lines)
  }

  lemma TerminatedCons(x: string, rest: seq<string>, sep: char)
    ensures Terminated([x] + rest, sep) == x + [sep] + Terminated(rest, sep)
  {
    assert ([x] + rest)[1..] == rest;
  }

  lemma JoinCons(x: string, rest: seq<string>, sep: char)
    requires |rest| >= 1
    ensures Join([x] + rest, sep) == x + [sep] + Join(rest, sep)
  {
    assert ([x] + rest)[1..] == rest;
  }

  lemma TerminatedStep(parts: seq<string>, sep: char)
    requires |parts| > 0
    ensures Terminated(parts, sep) == parts[0] + [sep] + Terminated(parts[1..], sep)
  {
  }

  lemma TerminatedOne(e: string, sep: char)
    ensures Terminated([e], sep) == e + [sep]
  {
    assert [e][1..] == [];
    assert e + [sep] + [] == e + [sep];
  }

  lemma TerminatedFive(a: string, b: string, c: string, d: string, e: string, sep: char)
    ensures Terminated([a, b, c, d, e], sep) == a + [sep] + b + [sep] + c + [sep] + d + [sep] + e + [sep]
  {
    var s := [sep];
    TerminatedOne(e, sep);
    assert [d, e][1..] == [e];
    TerminatedStep([d, e], sep);
    assert [c, d, e][1..] == [d, e];
    TerminatedStep([c, d, e], sep);
    assert [b, c, d, e][1..] == [c, d, e];
    TerminatedStep([b, c, d, e], sep);
    assert [a, b, c, d, e][1..] == [b, c, d, e];
    TerminatedStep([a, b, c, d, e], sep);
    assert Terminated([d, e], sep) == d + s + e + s;
    assert Terminated([c, d, e], sep) == c + s + d + s + e + s;
    assert Terminated([b, c, d, e], sep) == b + s + c + s + d + s + e + s;
  }

  lemma HeaderShape(h: string, name: string, phone: string, address: string)
    ensures h + "\n" + "\n" + "Customer: " + name + "\n" + "Phone: " + phone + "\n" + "Address: " + address + "\n"
         == Terminated([h, "", "Customer: " + name, "Phone: " + phone, "Address: " + address], '\n')
  {
    TerminatedFive(h, "", "Customer: " + name, "Phone: " + phone, "Address: " + address, '\n');
  }

  lemma HeaderIsTerminated(c: Customer)
    ensures Header(c) == Terminated(HeaderLines(c), '\n')
  {
    HeaderShape(HEADING, c.name, c.phone, c.address);
  }

  lemma JoinSix(a: string, b: string, c: string, d: string, e: string, f: string, sep: char)
    ensures Join([a, b, c, d, e, f], sep) == a + [sep] + b + [sep] + c + [sep] + d + [sep] + e + [sep] + f
  {
    assert [a, b, c, d, e, f] == [a] + ([b] + ([c] + ([d] + ([e] + [f]))));
    JoinCons(e, [f], sep);
    JoinCons(d, [e] + [f], sep);
    JoinCons(c, [d] + ([e] + [f]), sep);
    JoinCons(b, [c] + ([d] + ([e] + [f])), sep);
    JoinCons(a, [b] + ([c] + ([d] + ([e] + [f]))), sep);
  }

  lemma TerminatedTwo(a: string, b: string, sep: char)
    ensures Terminated([a, b], sep) == a + [sep] + b + [sep]
  {
    assert [a, b] == [a] + ([b] + []);
    TerminatedCons(b, [], sep);
    TerminatedCons(a, [b] + [], sep);
  }

  /** Two lines, then lines `s`, then lines `tail`. */
  lemma JoinAround(e: string, od: string, s: seq<string>, tail: seq<string>, sep: char)
    requires |s| >= 1 && |tail| >= 1
    ensures Join([e, od] + s + tail, sep) == e + [sep] + od + [sep] + (Join(s, sep) + [sep] + Join(tail, sep))
  {
    var st := s + tail;
    assert Join(st, sep) == Join(s, sep) + [sep] + Join(tail, sep) by {
      JoinAppend(s, tail, sep);
    }
    assert Join([e, od] + s + tail, sep) == e + [sep] + od + [sep] + Join(st, sep) by {
      assert [e, od] + s + tail == [e, od] + st;
      TerminatedTwo(e, od, sep);
      TerminatedJoin([e, od], st, sep);
    }
  }

  /** Regrouping the footer's pieces; `n` stands for the newline and `e` for the empty line. */
  lemma FooterRegroup(e: string, n: string, od: string, j: string, st: string, sub: string,
                      dl: string, del: string, tt: string, tot: string, th: string)
    requires e == []
    ensures n + od + n + j + n + n + st + sub + n + dl + del + n + tt + tot + n + n + th
         == e + n + od + n + (j + n + (e + n + (st + sub) + n + (dl + del) + n + (tt + tot) + n + e + n + th))
  {
    TailRegroup(e, n, st + sub, dl + del, tt + tot, th);
    HeadRegroup(n, od, j, st, sub, dl, del, tt, tot, th);
  }

  lemma TailRegroup(e: string, n: string, s: string, d: string, t: string, th: string)
    requires e == []
    ensures e + n + s + n + d + n + t + n + e + n + th == n + s + n + d + n + t + n + n + th
  {
  }

  lemma HeadRegroup(n: string, od: string, j: string, st: string, sub: string,
                    dl: string, del: string, tt: string, tot: string, th: string)
    ensures n + od + n + j + n + n + st + sub + n + dl + del + n + tt + tot + n + n + th
         == n + od + n + (j + n + (n + (st + sub) + n + (dl + del) + n + (tt + tot) + n + n + th))
  {
  }

  lemma FooterShape(s: seq<string>, subtotal: string, delivery: string, total: string, thanks: string)
    requires |s| >= 1
    ensures "\n" + "Order Details:" + "\n" + Join(s, '\n') + "\n" + "\n" +
            "Subtotal: " + subtotal + "\n" + "Delivery: " + delivery + "\n" +
            "Total: " + total + "\n" + "\n" + thanks
         == Join(["", "Order Details:"] + s +
                 ["", "Subtotal: " + subtotal, "Delivery: " + delivery, "Total: " + total, "", thanks], '\n')
  {
    var tail := ["", "Subtotal: " + subtotal, "Delivery: " + delivery, "Total: " + total, "", thanks];
    JoinAround("", "Order Details:", s, tail, '\n');
    JoinSix("", "Subtotal: " + subtotal, "Delivery: " + delivery, "Total: " + total, "", thanks, '\n');
    FooterRegroup("", "\n", "Order Details:", Join(s, '\n'), "Subtotal: ", subtotal,
                  "Delivery: ", delivery, "Total: ", total, thanks);
  }

  lemma FooterIsJoin(lines: seq<CartLine>)
    requires lines != []
    ensures Footer(OrderSummary(lines), Total(lines), GrandTotal(lines)) == Join(FooterLines(lines), '\n')
  {
    FooterShape(SummaryLines(lines), Money(Total(lines)), Money(DELIVERY_FEE), Money(GrandTotal(lines)), THANKS);
  }

  lemma OptionalIsTerminated(caption: string, value: string)
    ensures OptionalLine(caption, value) == Terminated(OptionalLines(caption, value), '\n')
  {
    if value != "" {
      TerminatedCons(caption + value, [], '\n');
      assert [caption + value] == [caption + value] + [];
    }
  }

  lemma Regroup<T>(a: seq<T>, b: seq<T>, c: seq<T>, d: seq<T>)
    ensures a + b + c + d == a + (b + (c + d))
  {
  }

  /** Three terminated sections in front of a joined one are the join of all their lines. */
  lemma SectionsJoin(hs: string, o1s: string, o2s: string, fs: string,
                     h: seq<string>, o1: seq<string>, o2: seq<string>, f: seq<string>)
    requires |f| >= 1
    requires hs == Terminated(h, '\n') && o1s == Terminated(o1, '\n') && o2s == Terminated(o2, '\n')
    requires fs == Join(f, '\n')
    ensures hs + o1s + o2s + fs == Join(h + o1 + o2 + f, '\n')
  {
    TerminatedJoin(o2, f, '\n');
    TerminatedJoin(o1, o2 + f, '\n');
    TerminatedJoin(h, o1 + (o2 + f), '\n');
    Regroup(hs, o1s, o2s, fs);
    Regroup(h, o1, o2, f);
  }

  /** The message is its lines joined by newlines. */
  lemma MessageIsJoin(c: Customer, lines: seq<CartLine>)
    requires lines != []
    ensures OrderMessage(c, lines) == Join(MessageLines(c, lines), '\n')
  {
    HeaderIsTerminated(c);
    OptionalIsTerminated("Delivery Time: ", c.deliveryTime);
    OptionalIsTerminated("Instructions: ", c.instructions);
    FooterIsJoin(lines);
    SectionsJoin(Header(c), OptionalLine("Delivery Time: ", c.deliveryTime),
      OptionalLine("Instructions: ", c.instructions), Footer(OrderSummary(lines), Total(lines), GrandTotal(lines)),
      HeaderLines(c), OptionalLines("Delivery Time: ", c.deliveryTime),
      OptionalLines("Instructions: ", c.instructions), FooterLines(lines));
  }

  predicate AllOneLine(ls: seq<string>) {
    forall i :: 0 <= i < |ls| ==> OneLine(ls[i])
  }

  lemma AllOneLineAppend(a: seq<string>, b: seq<string>)
    requires AllOneLine(a) && AllOneLine(b)
    ensures AllOneLine(a + b)
  {
    forall i | 0 <= i < |a + b| ensures OneLine((a + b)[i]) {
      if i >= |a| {
        assert (a + b)[i] == b[i - |a|];
      }
    }
  }

  lemma TailOneLine(subtotal: string, delivery: string, total: string)
    requires OneLine(subtotal) && OneLine(delivery) && OneLine(total)
    ensures AllOneLine(["", "Subtotal: " + subtotal, "Delivery: " + delivery, "Total: " + total, "", THANKS])
  {
  }

  lemma FooterOneLine(lines: seq<CartLine>)
    requires NamesOnOneLine(lines)
    ensures AllOneLine(FooterLines(lines))
  {
    IntToStringOneLine(Total(lines));
    IntToStringOneLine(DELIVERY_FEE);
    IntToStringOneLine(GrandTotal(lines));
    TailOneLine(Money(Total(lines)), Money(DELIVERY_FEE), Money(GrandTotal(lines)));
    forall j | 0 <= j < |lines| ensures OneLine(SummaryLines(lines)[j]) {
      SummaryLineOneLine(lines[j]);
    }
    AllOneLineAppend(["", "Order Details:"], SummaryLines(lines));
    AllOneLineAppend(["", "Order Details:"] + SummaryLines(lines),
      ["", "Subtotal: " + Money(Total(lines)), "Delivery: " + Money(DELIVERY_FEE), "Total: " + Money(GrandTotal(lines)), "", THANKS]);
  }

  /** The lines before the footer hold no line break when the fields hold none. */
  lemma CustomerOneLine(c: Customer)
    requires OneLine(c.name) && OneLine(c.phone) && OneLine(c.address)
    requires OneLine(c.deliveryTime) && OneLine(c.instructions)
    ensures AllOneLine(HeaderLines(c))
    ensures AllOneLine(OptionalLines("Delivery Time: ", c.deliveryTime))
    ensures AllOneLine(OptionalLines("Instructions: ", c.instructions))
  {
  }

  /** Text joined from four sections of single lines splits back into those lines. */
  lemma SectionsReadBack(msg: string, h: seq<string>, o1: seq<string>, o2: seq<string>, f: seq<string>)
    requires AllOneLine(h) && AllOneLine(o1) && AllOneLine(o2) && AllOneLine(f) && |f| >= 1
    requires msg == Join(h + o1 + o2 + f, '\n')
    ensures Split(msg, '\n') == h + o1 + o2 + f
  {
    AllOneLineAppend(h, o1);
    AllOneLineAppend(h + o1, o2);
    AllOneLineAppend(h + o1 + o2, f);
    SplitJoin(h + o1 + o2 + f, '\n');
  }

  /**
   * Read back line by line, the message gives exactly `MessageLines`, as long
   * as no field and no item name holds a line break.
   */
  lemma MessageReadsAsLines(c: Customer, lines: seq<CartLine>)
    requires lines != [] && NamesOnOneLine(lines)
    requires OneLine(c.name) && OneLine(c.phone) && OneLine(c.address)
    requires OneLine(c.deliveryTime) && OneLine(c.instructions)
    ensures Split(OrderMessage(c, lines), '\n') == MessageLines(c, lines)
  {
    var h, o1, o2, f := HeaderLines(c), OptionalLines("Delivery Time: ", c.deliveryTime),
      OptionalLines("Instructions: ", c.instructions), FooterLines(lines);
    assert OrderMessage(c, lines) == Join(h + o1 + o2 + f, '\n') by {
      MessageIsJoin(c, lines);
    }
    CustomerOneLine(c);
    FooterOneLine(lines);
    SectionsReadBack(OrderMessage(c, lines), h, o1, o2, f);
  }

  /** Where each of four consecutive sections sits in their concatenation. */
  lemma Sections<T>(h: seq<T>, o1: seq<T>, o2: seq<T>, f: seq<T>)
    ensures var m, p := h + o1 + o2 + f, |h| + |o1| + |o2|;
      && m[..|h|] == h && m[|h|..|h| + |o1|] == o1 && m[|h| + |o1|..p] == o2 && m[p..] == f
  {
    var m := h + o1 + o2 + f;
    assert m == h + (o1 + (o2 + f));
  }

  lemma FooterLayout(lines: seq<CartLine>)
    ensures var f, n := FooterLines(lines), |lines|;
      && |f| == n + 8
      && f[0] == "" && f[1] == "Order Details:" && f[2..n + 2] == SummaryLines(lines)
      && f[n + 2] == ""
      && f[n + 3] == "Subtotal: " + Money(Total(lines))
      && f[n + 4] == "Delivery: " + Money(DELIVERY_FEE)
      && f[n + 5] == "Total: " + Money(GrandTotal(lines))
      && f[n + 6] == "" && f[n + 7] == THANKS
  {
    FramedIndices("", "Order Details:", SummaryLines(lines), "", "Subtotal: " + Money(Total(lines)),
      "Delivery: " + Money(DELIVERY_FEE), "Total: " + Money(GrandTotal(lines)), "", THANKS);
  }

  /** Positions in a sequence made of two items, a middle part and six items. */
  lemma FramedIndices<T>(x0: T, x1: T, s: seq<T>, y0: T, y1: T, y2: T, y3: T, y4: T, y5: T)
    ensures var f, n := [x0, x1] + s + [y0, y1, y2, y3, y4, y5], |s|;
      && |f| == n + 8 && f[0] == x0 && f[1] == x1 && f[2..n + 2] == s
      && f[n + 2] == y0 && f[n + 3] == y1 && f[n + 4] == y2
      && f[n + 5] == y3 && f[n + 6] == y4 && f[n + 7] == y5
  {
  }

  /**
   * The lines of the message: the heading and a blank line, the customer's
   * name, phone and address, a "Delivery Time" and an "Instructions" line only
   * for filled fields, then the footer: a blank line, "Order Details:", one
   * summary line per cart line in cart order, a blank line, the subtotal, the
   * delivery fee, the total, a blank line and the thanks.
   */
  lemma MessageLayout(c: Customer, lines: seq<CartLine>)
    ensures var m := MessageLines(c, lines);
      var o1, o2 := OptionalLines("Delivery Time: ", c.deliveryTime), OptionalLines("Instructions: ", c.instructions);
      && |o1| == (if c.deliveryTime == "" then 0 else 1)
      && |o2| == (if c.instructions == "" then 0 else 1)
      && m[..5] == [HEADING, "", "Customer: " + c.name, "Phone: " + c.phone, "Address: " + c.address]
      && m[5..5 + |o1|] == o1 && m[5 + |o1|..5 + |o1| + |o2|] == o2
      && m[5 + |o1| + |o2|..] == FooterLines(lines)
  {
    var o1, o2 := OptionalLines("Delivery Time: ", c.deliveryTime), OptionalLines("Instructions: ", c.instructions);
    Sections(HeaderLines(c), o1, o2, FooterLines(lines));
  }

  /** What pressing "Place Order" shows: an error toast, or the message and a success toast. */
  datatype Outcome = Rejected(notice: Toast) | Confirmed(message: string, notice: Toast)

  const EMPTY_CART := Toast("Your cart is empty!", Error)
  const INVALID_FORM := Toast("Please fill in all required fields", Error)
  const CONFIRMED := Toast("Order confirmed! We will prepare it shortly.", Success)

  /**
   * The "Place Order" handler. `formValid` stands for the delivery form being
   * present and passing its browser validation; `c` is what the form holds.
   * An empty cart or an invalid form leaves the order as it was; otherwise the
   * message describes the cart as it was, and the cart is emptied and saved.
   */
  method PlaceOrder(order: OrderManager, formValid: bool, c: Customer) returns (outcome: Outcome)
    modifies order
    ensures old(order.items) == [] ==> outcome == Rejected(EMPTY_CART) && unchanged(order)
    ensures old(order.items) != [] && !formValid ==> outcome == Rejected(INVALID_FORM) && unchanged(order)
    ensures old(order.items) != [] && formValid ==>
      && outcome == Confirmed(OrderMessage(c, old(order.items)), CONFIRMED)
      && order.items == []
      && order.SavedOver(old(order.storage))
  {
    var items := order.GetItems();
    if |items| == 0 {
      return Rejected(EMPTY_CART);
    }
    if !formValid {
      return Rejected(INVALID_FORM);
    }
    var message := OrderMessage(c, items);
    order.ClearOrder();
    outcome := Confirmed(message, CONFIRMED);
  }

  /** The totals in the message agree with what the page displayed just before. */
  lemma MessageMatchesDisplay(c: Customer, lines: seq<CartLine>)
    requires lines != []
    ensures var m, v := MessageLines(c, lines), Display(lines);
      var k := |m| - 6;
      && m[k + 1] == "Subtotal: " + v.subtotalText
      && m[k + 3] == "Total: " + v.totalText
  {
    MessageLayout(c, lines);
    FooterLayout(lines);
    var m := MessageLines(c, lines);
    var p := |m| - |FooterLines(lines)|;
    assert m[p..] == FooterLines(lines);
    assert m[|m| - 5] == FooterLines(lines)[|lines| + 3];
    assert m[|m| - 3] == FooterLines(lines)[|lines| + 5];
  }
}
