/** The checks the shop's pages make before they call an operation: the
    product forms, the stock adjustment form, and the POS page, which builds
    an order's lines from one quantity box per product in stock. */
module Guards {
  import opened Tables
  import opened Reports
  import opened Inventory

  // ---------------------------------------------------------------------
  // product forms (add and edit)
  // ---------------------------------------------------------------------

  datatype FormError = MissingName | PriceBelowCost

  /** The add and edit product forms: the name is checked first, then that
      the selling price is not below the cost price. */
  function ProductFormCheck(name: string, price: int, costPrice: int): (r: Option<FormError>)
    ensures r.None? <==> name != "" && price >= costPrice
    ensures r == Some(MissingName) <==> name == ""
    ensures r == Some(PriceBelowCost) <==> name != "" && price < costPrice
  {
    if name == "" then Some(MissingName)
    else if price < costPrice then Some(PriceBelowCost)
    else None
  }

  // ---------------------------------------------------------------------
  // POS page
  // ---------------------------------------------------------------------

  /** The value a quantity box can hold: between 0 and the product's stock. */
  function Clamp(q: int, hi: int): (r: int)
    requires hi >= 0
    ensures 0 <= r <= hi
    ensures 0 <= q <= hi ==> r == q
  {
    if q < 0 then 0 else if q > hi then hi else q
  }

  /** The POS page's cart: the product ids in the order they were first
      added, the quantity kept for each, and the estimated total shown. */
  datatype Cart = Cart(keys: seq<Id>, qty: map<Id, int>, estimate: int)

  /** The box entered for product `pid` on the page (0 when untouched). */
  function Entered(chosen: map<Id, int>, pid: Id): int {
    if pid in chosen then chosen[pid] else 0
  }

  /** One row of the page: a product with stock shows a box bounded by its
      stock, and a positive quantity is put in the cart under the product's
      id and added to the estimate at the product's price. */
  function CartStep(ps: map<Id, Product>, c: Cart, pid: Id, chosen: map<Id, int>): Cart {
    if pid in ps && ps[pid].stock > 0 then
      var q := Clamp(Entered(chosen, pid), ps[pid].stock);
      if q > 0 then
        Cart(if pid in c.qty then c.keys else c.keys + [pid], c.qty[pid := q], c.estimate + ps[pid].price * q)
      else c
    else c
  }

  /** The cart after the rows `listing` of the page. */
  function PosCart(ps: map<Id, Product>, listing: seq<Id>, chosen: map<Id, int>): Cart {
    if listing == [] then Cart([], map[], 0)
    else CartStep(ps, PosCart(ps, listing[..|listing| - 1], chosen), listing[|listing| - 1], chosen)
  }

  /** The page's loop over the products in stock. */
  method BuildCart(ps: map<Id, Product>, listing: seq<Id>, chosen: map<Id, int>) returns (c: Cart)
    ensures c == PosCart(ps, listing, chosen)
  {
    var keys: seq<Id> := [];
    var qty: map<Id, int> := map[];
    var estimate := 0;
    var i := 0;
    while i < |listing|
      invariant 0 <= i <= |listing|
      invariant Cart(keys, qty, estimate) == PosCart(ps, listing[..i], chosen)
    {
      var pid := listing[i];
      assert listing[..i + 1][..i] == listing[..i];
      if pid in ps && ps[pid].stock > 0 {
        var q := Clamp(Entered(chosen, pid), ps[pid].stock);
        if q > 0 {
          if pid !in qty {
            keys := keys + [pid];
          }
          qty := qty[pid := q];
          estimate := estimate + ps[pid].price * q;
        }
      }
      i := i + 1;
    }
    assert listing[..|listing|] == listing;
    c := Cart(keys, qty, estimate);
  }

  /** The order lines the page hands to create_order, one per cart entry. */
  function CartLines(keys: seq<Id>, qty: map<Id, int>): (r: seq<LineRequest>)
    ensures |r| == |keys|
    ensures forall j :: 0 <= j < |keys| ==> r[j].productId == keys[j]
  {
    if keys == [] then []
    else
      var k := keys[|keys| - 1];
      CartLines(keys[..|keys| - 1], qty) + [LineRequest(k, if k in qty then qty[k] else 0)]
  }

  /** The quantity of each line is the one kept in the cart. */
  lemma {:induction false} CartLinesQty(keys: seq<Id>, qty: map<Id, int>, j: nat)
    requires j < |keys| && keys[j] in qty
    ensures CartLines(keys, qty)[j].qty == qty[keys[j]]
    decreases |keys|
  {
    if j < |keys| - 1 {
      CartLinesQty(keys[..|keys| - 1], qty, j);
    }
  }

  /** What the cart holds: each product at most once, every key with a
      quantity, and every quantity between 1 and the product's stock. */
  ghost predicate CartOk(ps: map<Id, Product>, c: Cart) {
    && (forall i, j :: 0 <= i < j < |c.keys| ==> c.keys[i] != c.keys[j])
    && (forall j :: 0 <= j < |c.keys| ==> c.keys[j] in c.qty)
    && (forall pid :: pid in c.qty ==> pid in ps && 0 < c.qty[pid] <= ps[pid].stock)
  }

  lemma {:induction false} PosCartOk(ps: map<Id, Product>, listing: seq<Id>, chosen: map<Id, int>)
    ensures CartOk(ps, PosCart(ps, listing, chosen))
    decreases |listing|
  {
    if listing != [] {
      var c := PosCart(ps, listing[..|listing| - 1], chosen);
      PosCartOk(ps, listing[..|listing| - 1], chosen);
      var pid := listing[|listing| - 1];
      if pid !in c.qty {
        forall j | 0 <= j < |c.keys| ensures c.keys[j] != pid {
          assert c.keys[j] in c.qty;
        }
      }
    }
  }

  /** The lines built from the POS page name each product once, ask for a
      positive quantity of it, and pass create_order's check against the
      products the page was drawn from: such an order is never rejected. */
  lemma PosLinesAccepted(ps: map<Id, Product>, listing: seq<Id>, chosen: map<Id, int>)
    ensures var c := PosCart(ps, listing, chosen);
      var lines := CartLines(c.keys, c.qty);
      && DistinctLines(lines)
      && (forall j :: 0 <= j < |lines| ==> lines[j].qty > 0)
      && FirstFailure(ps, lines) == None
  {
    var c := PosCart(ps, listing, chosen);
    var lines := CartLines(c.keys, c.qty);
    PosCartOk(ps, listing, chosen);
    forall j | 0 <= j < |lines| ensures lines[j].qty > 0 && LineCheck(ps, lines[j]).None? {
      CartLinesQty(c.keys, c.qty, j);
    }
  }

  /** The value of lines at the prices of `ps`. */
  function LinesValue(ps: map<Id, Product>, lines: seq<LineRequest>): int
    requires AllFound(ps, lines)
  {
    if lines == [] then 0
    else
      var n := |lines| - 1;
      LinesValue(ps, lines[..n]) + ps[lines[n].productId].price * lines[n].qty
  }

  /** The revenue of the order items a sale writes is the value of its lines
      at the prices the sale started with. */
  lemma {:induction false} SaleItemsRevenue(base: Id, orderId: Id, ps: map<Id, Product>, lines: seq<LineRequest>)
    requires AllFound(ps, lines)
    ensures Revenue(SaleItems(base, orderId, ps, lines)) == LinesValue(ps, lines)
    decreases |lines|
  {
    if lines != [] {
      var n := |lines| - 1;
      assert AllFound(ps, lines[..n]);
      SaleItemsRevenue(base, orderId, ps, lines[..n]);
      var items := SaleItems(base, orderId, ps, lines);
      assert items[..|items| - 1] == SaleItems(base, orderId, ps, lines[..n]);
    }
  }

  /** Adding a cart entry for a new product appends one line. */
  lemma {:induction false} CartLinesFrame(keys: seq<Id>, qty: map<Id, int>, pid: Id, q: int)
    requires pid !in keys
    ensures CartLines(keys, qty[pid := q]) == CartLines(keys, qty)
    decreases |keys|
  {
    if keys != [] {
      CartLinesFrame(keys[..|keys| - 1], qty, pid, q);
    }
  }

  /** A cart entry for a product not yet among the keys appends one line. */
  lemma CartLinesSnoc(keys: seq<Id>, qty: map<Id, int>, pid: Id, q: int)
    requires pid !in keys
    ensures CartLines(keys + [pid], qty[pid := q]) == CartLines(keys, qty) + [LineRequest(pid, q)]
  {
    CartLinesFrame(keys, qty, pid, q);
    assert (keys + [pid])[..|keys|] == keys;
  }

  /** One more line adds its value at the prices of `ps`. */
  lemma LinesValueSnoc(ps: map<Id, Product>, lines0: seq<LineRequest>, line: LineRequest)
    requires AllFound(ps, lines0) && line.productId in ps
    ensures AllFound(ps, lines0 + [line])
    ensures LinesValue(ps, lines0 + [line]) == LinesValue(ps, lines0) + ps[line.productId].price * line.qty
  {
    assert (lines0 + [line])[..|lines0|] == lines0;
  }

  /** One row of the page for a product not yet in the cart keeps the
      estimate equal to the value of the cart's lines. */
  lemma CartStepValue(ps: map<Id, Product>, c0: Cart, pid: Id, chosen: map<Id, int>)
    requires CartOk(ps, c0) && pid !in c0.qty
    requires AllFound(ps, CartLines(c0.keys, c0.qty))
    requires c0.estimate == LinesValue(ps, CartLines(c0.keys, c0.qty))
    ensures var c := CartStep(ps, c0, pid, chosen);
      && AllFound(ps, CartLines(c.keys, c.qty))
      && c.estimate == LinesValue(ps, CartLines(c.keys, c.qty))
  {
    var c := CartStep(ps, c0, pid, chosen);
    if c != c0 {
      var q := c.qty[pid];
      assert pid !in c0.keys;
      assert c.keys == c0.keys + [pid] && c.qty == c0.qty[pid := q];
      CartLinesSnoc(c0.keys, c0.qty, pid, q);
      LinesValueSnoc(ps, CartLines(c0.keys, c0.qty), LineRequest(pid, q));
    }
  }

  /** With each product listed once, the estimate the POS page shows is the
      value of the lines it hands to create_order. */
  lemma {:induction false} EstimateIsLinesValue(ps: map<Id, Product>, listing: seq<Id>, chosen: map<Id, int>)
    requires forall i, j :: 0 <= i < j < |listing| ==> listing[i] != listing[j]
    ensures var c := PosCart(ps, listing, chosen);
      && AllFound(ps, CartLines(c.keys, c.qty))
      && (forall pid :: pid in c.qty ==> pid in listing)
      && c.estimate == LinesValue(ps, CartLines(c.keys, c.qty))
    decreases |listing|
  {
    if listing != [] {
      var n := |listing| - 1;
      var init := listing[..n];
      var pid := listing[n];
      var c0 := PosCart(ps, init, chosen);
      EstimateIsLinesValue(ps, init, chosen);
      PosCartOk(ps, init, chosen);
      assert pid !in init;
      assert forall p :: p in init ==> p in listing;
      CartStepValue(ps, c0, pid, chosen);
    }
  }

  /** An accepted order's total is the value of its lines at the prices of
      the products when the order started. */
  lemma OrderTotalIsLinesValue(t: Tables, lines: seq<LineRequest>, now: Timestamp)
    requires AllFound(t.products, lines) && FirstFailure(t.products, lines) == None
    ensures CreateOrder(t, lines, now).Ok?
    ensures CreateOrder(t, lines, now).value.orders[|t.orders|].total == LinesValue(t.products, lines)
  {
    calc {
      CreateOrder(t, lines, now).value.orders[|t.orders|].total;
      { CreateOrderHeader(t, lines, now); }
      Revenue(NewItems(t, lines, now));
      { NewRowsAreSaleRows(t, lines, now); }
      Revenue(SaleItems(t.nextId + 1, t.nextId, t.products, lines));
      { SaleItemsRevenue(t.nextId + 1, t.nextId, t.products, lines); }
      LinesValue(t.products, lines);
    }
  }

  /** What the customer sees is what they pay: placing the order built on
      the POS page from each product listed once succeeds, and its total is
      the estimate the page showed. */
  lemma PosEstimateIsOrderTotal(t: Tables, listing: seq<Id>, chosen: map<Id, int>, now: Timestamp)
    requires forall i, j :: 0 <= i < j < |listing| ==> listing[i] != listing[j]
    ensures var c := PosCart(t.products, listing, chosen);
      var r := CreateOrder(t, CartLines(c.keys, c.qty), now);
      r.Ok? && r.value.orders[|t.orders|].total == c.estimate
  {
    var c := PosCart(t.products, listing, chosen);
    var lines := CartLines(c.keys, c.qty);
    PosLinesAccepted(t.products, listing, chosen);
    EstimateIsLinesValue(t.products, listing, chosen);
    OrderTotalIsLinesValue(t, lines, now);
  }

  // ---------------------------------------------------------------------
  // the pages together
  // ---------------------------------------------------------------------

  /** Whether a page lets the action through: the product forms pass their
      check (a new product's stock box starts at 0), a stock adjustment is
      not zero, and an order is a non-empty cart of distinct products with
      positive quantities. */
  ghost predicate Admits(op: Op) {
    match op
    case AddProductOp(name, price, costPrice, stock, _, _, _) =>
      ProductFormCheck(name, price, costPrice).None? && stock >= 0
    case UpdateProductOp(_, name, price, costPrice, _, _, _, _) =>
      ProductFormCheck(name, price, costPrice).None?
    case AdjustStockOp(_, change, _, _) => change != 0
    case CreateOrderOp(lines, _) =>
      lines != [] && DistinctLines(lines) && forall j :: 0 <= j < |lines| ==> lines[j].qty > 0
  }

  /** Every product is priced at or above its cost, and every sold line has
      a non-negative quantity and was priced at or above its cost. */
  ghost predicate Margins(t: Tables) {
    && (forall pid :: pid in t.products ==> t.products[pid].price >= t.products[pid].costPrice)
    && (forall it :: it in t.orderItems ==> it.qty >= 0 && it.price >= it.costPrice)
  }

  /** Every action a page lets through keeps the margins. */
  lemma AdmittedKeepsMargins(t: Tables, op: Op)
    requires WellFormed(t) && Margins(t) && Admits(op)
    ensures Margins(Apply(t, op))
  {
    match op {
      case AddProductOp(name, price, costPrice, stock, notes, imagePath, now) =>
        AddProductEffect(t, name, price, costPrice, stock, notes, imagePath, now);
      case UpdateProductOp(pid, name, price, costPrice, notes, newImage, removeImage, imageExists) =>
        if UpdateProduct(t, pid, name, price, costPrice, notes, newImage, removeImage, imageExists).Ok? {
          UpdateProductEffect(t, pid, name, price, costPrice, notes, newImage, removeImage, imageExists);
        }
      case AdjustStockOp(pid, change, reason, now) =>
        if AddStockMovement(t, pid, change, reason, now, false).Ok? {
          AddStockMovementEffect(t, pid, change, reason, now, false);
        }
      case CreateOrderOp(lines, now) =>
        if CreateOrder(t, lines, now).Ok? {
          OrderKeepsMargins(t, lines, now);
        }
    }
  }

  /** An accepted order of positive quantities keeps the margins: its lines
      take the prices of products that keep theirs. */
  lemma OrderKeepsMargins(t: Tables, lines: seq<LineRequest>, now: Timestamp)
    requires Margins(t) && CreateOrder(t, lines, now).Ok?
    requires forall j :: 0 <= j < |lines| ==> lines[j].qty > 0
    ensures Margins(CreateOrder(t, lines, now).value)
  {
    AcceptedLinesFound(t, lines, now);
    CreateOrderProducts(t, lines, now);
    NewItemsAt(t, lines, now);
    var items := NewItems(t, lines, now);
    assert CreateOrder(t, lines, now).value.orderItems == t.orderItems + items;
    forall it | it in items ensures it.qty >= 0 && it.price >= it.costPrice {
      var j :| 0 <= j < |items| && items[j] == it;
    }
  }

  /** Inner-joined lines are order items. */
  lemma {:induction false} JoinedFromIn(items: seq<OrderItem>, orderIds: set<Id>, productIds: set<Id>)
    ensures forall it :: it in JoinedFrom(items, orderIds, productIds) ==> it in items
    decreases |items|
  {
    if items != [] {
      JoinedFromIn(items[..|items| - 1], orderIds, productIds);
      assert forall it :: it in items[..|items| - 1] ==> it in items;
    }
  }

  /** Sheets with their margins report a non-negative gross profit, and a
      non-negative profit for every order in the order history. */
  lemma MarginsReport(t: Tables)
    requires Margins(t)
    ensures GrossProfit(t) >= 0
    ensures forall oid :: OrderProfit(Joined(t), oid) >= 0
  {
    JoinedFromIn(t.orderItems, OrderIds(t.orders), t.products.Keys);
    ProfitNonNegative(Joined(t));
    forall oid ensures OrderProfit(Joined(t), oid) >= 0 {
      OrderProfitNonNegative(Joined(t), oid);
    }
  }

  /** Any sequence of actions the pages let through keeps the margins, and
      the sheets consistent and balanced. */
  lemma {:induction false} AdmittedRunKeepsMargins(t: Tables, ops: seq<Op>)
    requires WellFormed(t) && Balanced(t) && TotalsMatch(t) && Margins(t)
    requires forall k :: 0 <= k < |ops| ==> Admits(ops[k])
    ensures Margins(Run(t, ops))
    decreases |ops|
  {
    if ops != [] {
      AdmittedKeepsMargins(t, ops[0]);
      RunKeepsLedger(t, ops[..1]);
      assert Run(t, ops[..1]) == Apply(t, ops[0]);
      AdmittedRunKeepsMargins(Apply(t, ops[0]), ops[1..]);
    }
  }

  /** Starting from an empty shop, or any consistent one with its margins,
      after any sequence of actions the pages let through the report shows
      no negative gross profit and no order with a negative profit. */
  lemma AdmittedRunProfitNonNegative(t: Tables, ops: seq<Op>)
    requires WellFormed(t) && Balanced(t) && TotalsMatch(t) && Margins(t)
    requires forall k :: 0 <= k < |ops| ==> Admits(ops[k])
    ensures GrossProfit(Run(t, ops)) >= 0
    ensures forall oid :: OrderProfit(Joined(Run(t, ops)), oid) >= 0
  {
    AdmittedRunKeepsMargins(t, ops);
    MarginsReport(Run(t, ops));
  }
}
