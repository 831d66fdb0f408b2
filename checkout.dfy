/** Finalising an order: the figures `showReceipt` computes from the cart, and
    the Close handler of the receipt, which records the sale and empties the
    cart. */
module Checkout {
  import opened Common
  import opened ShoppingCart
  import opened Money
  import opened Order
  import opened Ledger
  import Text

  /** What the receipt shows: the customer details and the amounts. */
  datatype Receipt = Receipt(details: OrderDetails, subtotal: nat, gst: nat, totalWithGst: nat)

  /** `showReceipt(details)`: the subtotal is the sum of the cart's prices, the
      GST is 18% of it rounded to the paisa, half up, and the total is exactly
      subtotal plus GST. */
  function ShowReceipt(lines: seq<CartLine>, details: OrderDetails): (r: Receipt)
    ensures r.details == details
    ensures r.subtotal == SumPrices(lines)
    ensures 100 * r.gst <= GstPercent * r.subtotal + 50 < 100 * r.gst + 100
    ensures r.totalWithGst == r.subtotal + r.gst
  {
    var subtotal := SumPrices(lines);
    Receipt(details, subtotal, Gst(subtotal), TotalWithGst(subtotal))
  }

  /** `cart.map(c => ({item: c.item, price: c.price, qty: c.qty || 1}))`: a
      value copy of the cart lines, dropping the ids. */
  function SnapshotItems(lines: seq<CartLine>): (items: seq<SaleItem>)
    ensures |items| == |lines|
    ensures forall i :: 0 <= i < |lines| ==>
              items[i] == SaleItem(lines[i].item, lines[i].price, EffectiveQty(lines[i].qty))
  {
    if lines == [] then []
    else SnapshotItems(lines[..|lines| - 1])
         + [SaleItem(lines[|lines| - 1].item, lines[|lines| - 1].price, EffectiveQty(lines[|lines| - 1].qty))]
  }

  /** The copied lines are worth what the cart was worth. */
  lemma {:induction false} SnapshotKeepsSubtotal(lines: seq<CartLine>)
    ensures ItemsSubtotal(SnapshotItems(lines)) == SumPrices(lines)
  {
    if lines != [] {
      var init := lines[..|lines| - 1];
      SnapshotKeepsSubtotal(init);
      assert SnapshotItems(lines)[..|lines| - 1] == SnapshotItems(init);
    }
  }

  /** The number of cart lines for product `name`. */
  function LinesOf(lines: seq<CartLine>, name: string): nat
  {
    if lines == [] then 0
    else LinesOf(lines[..|lines| - 1], name) + (if lines[|lines| - 1].item == name then 1 else 0)
  }

  /** A cart of one-unit lines adds, per product, as many units as it has
      lines for that product. */
  lemma {:induction false} SnapshotUnits(lines: seq<CartLine>, name: string)
    requires forall i :: 0 <= i < |lines| ==> lines[i].qty == 1
    ensures ItemUnits(SnapshotItems(lines), name) == LinesOf(lines, name)
  {
    if lines != [] {
      var init := lines[..|lines| - 1];
      SnapshotUnits(init, name);
      assert SnapshotItems(lines)[..|lines| - 1] == SnapshotItems(init);
    }
  }

  /** The record the Close handler builds: the copied items, the receipt's
      amounts and the customer details, dated in month `month`. */
  function MakeRecord(receipt: Receipt, lines: seq<CartLine>, month: YearMonth): (r: SaleRecord)
    ensures r.items == SnapshotItems(lines) && r.month == Some(month)
    ensures r.subtotal == receipt.subtotal && r.gst == receipt.gst && r.totalWithGst == receipt.totalWithGst
    ensures r.paymentMethod == receipt.details.paymentMethod
    ensures r.customer == Customer(receipt.details.name, receipt.details.phone, receipt.details.address)
  {
    SaleRecord(Some(month), SnapshotItems(lines), receipt.subtotal, receipt.gst, receipt.totalWithGst,
               receipt.details.paymentMethod,
               Customer(receipt.details.name, receipt.details.phone, receipt.details.address))
  }

  /** When the cart has not changed since the receipt was shown, the record is
      consistent: its items add up to its subtotal and its total is subtotal
      plus GST. */
  lemma RecordConsistent(lines: seq<CartLine>, details: OrderDetails, month: YearMonth)
    ensures var r := MakeRecord(ShowReceipt(lines, details), lines, month);
            ItemsSubtotal(r.items) == r.subtotal && r.totalWithGst == r.subtotal + r.gst
  {
    SnapshotKeepsSubtotal(lines);
  }

  /** Committing a cart of one-unit lines raises each product's count by the
      number of its lines in the cart, and the revenue by the receipt total. */
  lemma CommitAddsUp(records: seq<SaleRecord>, receipt: Receipt, lines: seq<CartLine>, month: YearMonth, name: string)
    requires forall i :: 0 <= i < |lines| ==> lines[i].qty == 1
    ensures var after := records + [MakeRecord(receipt, lines, month)];
            && UnitsSold(after, name) == UnitsSold(records, name) + LinesOf(lines, name)
            && TotalRevenue(after) == TotalRevenue(records) + receipt.totalWithGst
  {
    var after := records + [MakeRecord(receipt, lines, month)];
    assert after[..|after| - 1] == records;
    SnapshotUnits(lines, name);
  }

  /** The receipt's Close button: the sale is appended to the ledger as its
      last record, then the cart is emptied and its total zeroed; the id
      counter carries on. `month` is the current month (the clock is outside
      the model). */
  method CloseReceipt(cart: Cart, ledger: SalesLedger, receipt: Receipt, month: YearMonth)
    returns (record: SaleRecord)
    requires cart.Valid()
    modifies cart, ledger
    ensures record == MakeRecord(receipt, old(cart.lines), month)
    ensures ledger.salesRecords == old(ledger.salesRecords) + [record]
    ensures cart.Valid() && cart.lines == [] && cart.total == 0
    ensures cart.nextCartId == old(cart.nextCartId)
  {
    record := MakeRecord(receipt, cart.lines, month);
    ledger.RecordSale(record);
    cart.Clear();
  }

  /** `placeOrder` refuses exactly when every line in the cart is free; in
      particular it refuses an empty cart. */
  lemma PlaceOrderRefusesFreeCart(lines: seq<CartLine>)
    ensures PlaceOrder(SumPrices(lines)) == Idle <==> forall i :: 0 <= i < |lines| ==> lines[i].price == 0
    ensures lines == [] ==> PlaceOrder(SumPrices(lines)) == Idle
  {
    SumPricesZeroIff(lines);
  }

  /** One checkout from start to finish, as the dialogs chain it: `placeOrder`,
      one press in the payment dialog, and on Confirm the Close of the receipt.
      A refused start, a cancelled dialog or a rejected form leaves the cart
      and the ledger as they were; an accepted form commits exactly one record
      and empties the cart. */
  method PlaceAndCommit(cart: Cart, ledger: SalesLedger, action: DialogAction, month: YearMonth)
    returns (outcome: Phase)
    requires cart.Valid()
    modifies cart, ledger
    ensures cart.Valid()
    ensures old(cart.total) == 0 ==> outcome == Idle
    ensures old(cart.total) != 0 && action.PressCancel? ==> outcome == Cancelled
    ensures old(cart.total) != 0 && action.PressConfirm? ==> outcome == Confirm(Collecting(None), action.form)
    ensures outcome == Cancelled ==>
              && cart.lines == old(cart.lines) && cart.total == old(cart.total)
              && ledger.salesRecords == old(ledger.salesRecords)
    ensures !outcome.Confirmed? ==>
              && cart.lines == old(cart.lines) && cart.total == old(cart.total)
              && ledger.salesRecords == old(ledger.salesRecords)
    ensures outcome.Confirmed? ==>
              && ledger.salesRecords == old(ledger.salesRecords)
                   + [MakeRecord(ShowReceipt(old(cart.lines), outcome.details), old(cart.lines), month)]
              && cart.lines == [] && cart.total == 0
    ensures cart.nextCartId == old(cart.nextCartId)
  {
    outcome := PlaceOrder(cart.total);
    if outcome == Idle {
      return;
    }
    if action.PressCancel? {
      outcome := Cancel(outcome);
      return;
    }
    outcome := Confirm(outcome, action.form);
    if outcome.Confirmed? {
      var receipt := ShowReceipt(cart.lines, outcome.details);
      var _ := CloseReceipt(cart, ledger, receipt, month);
    }
  }

  /** A session as a caller sees it through the contracts alone: a Burger at
      5.00 and Fries at 2.00, a removal by a stale id, a payment dialog
      cancelled, then one checkout with valid details. The ledger ends with one record of total 8.26 and the
      cart is empty, its id counter still at 3. */
  method BurgerAndFries(month: YearMonth)
  {
    var cart := new Cart();
    var burger := cart.AddToCart("Burger", 500);
    var fries := cart.AddToCart("Fries", 200);
    assert cart.total == 700 && burger == 1 && fries == 2;
    cart.RemoveFromCart(7);
    assert cart.total == 700 && cart.nextCartId == 3;
    var ledger := new SalesLedger.Load(None);
    var form := PaymentForm(Upi, "Asha", "9876543210", "12 Park Street");
    SampleFormNeedsNoTrim(form);
    CheckoutSevenRupees(cart, ledger, form, month);
  }

  /** The details typed in the session above need no trimming. */
  lemma SampleFormNeedsNoTrim(form: PaymentForm)
    requires form == PaymentForm(Upi, "Asha", "9876543210", "12 Park Street")
    ensures NeedsNoTrim(form.name) && NeedsNoTrim(form.address)
    ensures NeedsNoTrim(form.phone) && |form.phone| >= MinPhoneLength
  {
    assert form.name[0] == 'A' && form.name[3] == 'a';
    assert form.phone[0] == '9' && form.phone[9] == '0';
    assert form.address[0] == '1' && form.address[13] == 't';
  }

  /** The checkout half of the session above, from any valid cart of 7.00
      and any form that passes unchanged: the cancelled dialog changes
      nothing, the confirmed one records 8.26. */
  method CheckoutSevenRupees(cart: Cart, ledger: SalesLedger, form: PaymentForm, month: YearMonth)
    requires cart.Valid() && cart.total == 700 && cart.nextCartId == 3
    requires ledger.salesRecords == []
    requires NeedsNoTrim(form.name) && NeedsNoTrim(form.address)
    requires NeedsNoTrim(form.phone) && |form.phone| >= MinPhoneLength
    modifies cart, ledger
  {
    TrimmedFormAccepted(form);
    var details := OrderDetails(form.payment, form.name, form.phone, form.address);
    SevenRupeeOrder();
    var lines := cart.lines;
    var outcome := PlaceAndCommit(cart, ledger, PressCancel, month);
    assert outcome == Cancelled && cart.total == 700 && ledger.salesRecords == [];
    outcome := PlaceAndCommit(cart, ledger, PressConfirm(form), month);
    assert outcome == Confirmed(details);
    assert ShowReceipt(lines, details).totalWithGst == 826;
    assert |ledger.salesRecords| == 1 && ledger.salesRecords[0].totalWithGst == 826;
    assert cart.lines == [] && cart.total == 0 && cart.nextCartId == 3;
  }
}
