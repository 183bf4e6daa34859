/** The inventory engine as functions from the four sheets to their new
    contents: adding and editing products, recording stock movements, and
    placing an order in two passes (check every line, then sell every line).
    The `Shop` class runs the same operations in place; these functions are
    what its methods are proved against, and the lemmas below state what the
    operations promise. */
module Inventory {
  import opened Tables
  import opened Reports

  /** Reason recorded on the movement that seeds a new product's stock. */
  const InitialReason: string := "Initial / Import"

  /** Reason recorded on the movement of every sold line. */
  const SaleReason: string := "Sale"

  /** One requested line of an order: which product and how many. */
  datatype LineRequest = LineRequest(productId: Id, qty: int)

  // ---------------------------------------------------------------------
  // add_stock_movement
  // ---------------------------------------------------------------------

  /** Records a stock movement of `change` units for product `pid`. On the
      default path the product's stock moves by `change` as well (with no
      lower bound); with `skipProductUpdate` only the ledger row is written.
      An unknown product is an error. */
  function AddStockMovement(t: Tables, pid: Id, change: int, reason: string, now: Timestamp,
                            skipProductUpdate: bool): (r: Result<Tables>)
    ensures r.Err? <==> pid !in t.products
    ensures r.Err? ==> r.error == ProductNotFound(pid)
  {
    if pid !in t.products then Err(ProductNotFound(pid))
    else
      var p := t.products[pid];
      var ps := if skipProductUpdate then t.products else t.products[pid := p.(stock := p.stock + change)];
      Ok(t.(products := ps,
            movements := t.movements + [StockMovement(t.nextId, pid, change, reason, now)],
            nextId := t.nextId + 1))
  }

  /** What a recorded movement does: exactly one ledger row carrying the
      change and the reason, the target's stock moved by the change on the
      default path only, every other product and the order sheets as they were. */
  lemma AddStockMovementEffect(t: Tables, pid: Id, change: int, reason: string, now: Timestamp,
                               skipProductUpdate: bool)
    requires AddStockMovement(t, pid, change, reason, now, skipProductUpdate).Ok?
    ensures var r := AddStockMovement(t, pid, change, reason, now, skipProductUpdate).value;
      && r.products.Keys == t.products.Keys
      && (forall q :: q in t.products ==>
            r.products[q] == t.products[q].(stock := t.products[q].stock +
              (if q == pid && !skipProductUpdate then change else 0)))
      && r.movements == t.movements + [StockMovement(t.nextId, pid, change, reason, now)]
      && r.orders == t.orders && r.orderItems == t.orderItems && r.nextId == t.nextId + 1
  {
  }

  /** A single movement row adds its change to its own product's ledger only. */
  lemma LedgerOfOne(ms: seq<StockMovement>, m: StockMovement, pid: Id)
    ensures Ledger(ms + [m], pid) == Ledger(ms, pid) + (if m.productId == pid then m.change else 0)
  {
    assert (ms + [m])[..|ms + [m]| - 1] == ms;
  }

  /** The default path keeps every product's stock equal to its ledger. */
  lemma AddStockMovementKeepsBalance(t: Tables, pid: Id, change: int, reason: string, now: Timestamp)
    requires WellFormed(t) && Balanced(t)
    requires AddStockMovement(t, pid, change, reason, now, false).Ok?
    ensures Balanced(AddStockMovement(t, pid, change, reason, now, false).value)
    ensures WellFormed(AddStockMovement(t, pid, change, reason, now, false).value)
  {
    var r := AddStockMovement(t, pid, change, reason, now, false).value;
    var m := StockMovement(t.nextId, pid, change, reason, now);
    AddStockMovementEffect(t, pid, change, reason, now, false);
    forall q | q in r.products ensures r.products[q].stock == Ledger(r.movements, q) {
      LedgerOfOne(t.movements, m, q);
    }
  }

  /** On consistent sheets the recorded movement's id is fresh: no earlier
      movement carries it. Either path keeps the sheets consistent. */
  lemma AddStockMovementFreshId(t: Tables, pid: Id, change: int, reason: string, now: Timestamp,
                                skipProductUpdate: bool)
    requires WellFormed(t)
    requires AddStockMovement(t, pid, change, reason, now, skipProductUpdate).Ok?
    ensures var r := AddStockMovement(t, pid, change, reason, now, skipProductUpdate).value;
      && (forall m :: m in t.movements ==> m.id != r.movements[|r.movements| - 1].id)
      && WellFormed(r)
  {
    var r := AddStockMovement(t, pid, change, reason, now, skipProductUpdate).value;
    var m := StockMovement(t.nextId, pid, change, reason, now);
    assert r.movements == t.movements + [m];
    MovementsAppend(t.movements, [m], t.products.Keys, r.products.Keys, t.nextId, r.nextId);
  }

  // ---------------------------------------------------------------------
  // add_product
  // ---------------------------------------------------------------------

  /** Adds a product row under a fresh id with the given initial stock and
      seeds the ledger with one "Initial / Import" movement through the
      ledger-only path, so the stock is not counted twice. `imagePath` is the
      stored image's path ("" when no image was uploaded). */
  function AddProduct(t: Tables, name: string, price: int, costPrice: int, stock: int,
                      notes: string, imagePath: string, now: Timestamp): Tables
  {
    var id := t.nextId;
    var t1 := t.(products := t.products[id := Product(name, price, costPrice, stock, imagePath, notes)],
                 nextId := id + 1);
    AddStockMovement(t1, id, stock, InitialReason, now, true).value
  }

  /** The new product is stored under an id no product had, carries exactly
      the given stock (not twice it), and the ledger gains exactly one
      movement with that stock as its change and "Initial / Import" as its
      reason. */
  lemma AddProductEffect(t: Tables, name: string, price: int, costPrice: int, stock: int,
                         notes: string, imagePath: string, now: Timestamp)
    requires WellFormed(t)
    ensures var r := AddProduct(t, name, price, costPrice, stock, notes, imagePath, now);
      && t.nextId !in t.products
      && r.products.Keys == t.products.Keys + {t.nextId}
      && r.products[t.nextId] == Product(name, price, costPrice, stock, imagePath, notes)
      && (forall q :: q in t.products ==> r.products[q] == t.products[q])
      && r.movements == t.movements + [StockMovement(t.nextId + 1, t.nextId, stock, InitialReason, now)]
      && r.orders == t.orders && r.orderItems == t.orderItems
      && r.nextId == t.nextId + 2
  {
  }

  /** Adding a product keeps the sheets consistent: the product and its
      seed movement take the next two ids. */
  lemma AddProductKeepsWellFormed(t: Tables, name: string, price: int, costPrice: int, stock: int,
                                  notes: string, imagePath: string, now: Timestamp)
    requires WellFormed(t)
    ensures WellFormed(AddProduct(t, name, price, costPrice, stock, notes, imagePath, now))
  {
    var id := t.nextId;
    var t1 := t.(products := t.products[id := Product(name, price, costPrice, stock, imagePath, notes)],
                 nextId := id + 1);
    assert WellFormed(t1) by {
      assert t.orderItems + [] == t.orderItems;
      ItemsAppend(t.orderItems, [], t.products.Keys, t1.products.Keys,
                  OrderIds(t.orders), OrderIds(t1.orders), t.nextId, t1.nextId);
      assert t.movements + [] == t.movements;
      MovementsAppend(t.movements, [], t.products.Keys, t1.products.Keys, t.nextId, t1.nextId);
    }
    AddStockMovementFreshId(t1, id, stock, InitialReason, now, true);
  }

  /** Adding a product keeps the sheets consistent and the ledger balanced. */
  lemma AddProductKeepsBalance(t: Tables, name: string, price: int, costPrice: int, stock: int,
                               notes: string, imagePath: string, now: Timestamp)
    requires WellFormed(t) && Balanced(t)
    ensures WellFormed(AddProduct(t, name, price, costPrice, stock, notes, imagePath, now))
    ensures Balanced(AddProduct(t, name, price, costPrice, stock, notes, imagePath, now))
  {
    var r := AddProduct(t, name, price, costPrice, stock, notes, imagePath, now);
    var id := t.nextId;
    var m := StockMovement(id + 1, id, stock, InitialReason, now);
    AddProductKeepsWellFormed(t, name, price, costPrice, stock, notes, imagePath, now);
    AddProductEffect(t, name, price, costPrice, stock, notes, imagePath, now);
    forall q | q in r.products ensures r.products[q].stock == Ledger(r.movements, q) {
      LedgerOfOne(t.movements, m, q);
      if q == id {
        LedgerOfOthers(t.movements, id);
      }
    }
  }

  // ---------------------------------------------------------------------
  // update_product
  // ---------------------------------------------------------------------

  /** Edits the name, prices, notes and image of product `pid`; stock and the
      ledger are not touched. `newImage` is the path of a newly stored image,
      `removeImage` the "remove current image" box, and `imageExists` whether
      the current image file is present. An unknown product is an error. */
  function UpdateProduct(t: Tables, pid: Id, name: string, price: int, costPrice: int, notes: string,
                         newImage: Option<string>, removeImage: bool, imageExists: bool): (r: Result<Tables>)
    ensures r.Err? <==> pid !in t.products
    ensures r.Err? ==> r.error == ProductNotFound(pid)
  {
    if pid !in t.products then Err(ProductNotFound(pid))
    else
      var p := t.products[pid];
      var removed := removeImage && p.imagePath != "" && imageExists;
      var path := if newImage.Some? then newImage.value else if removed then "" else p.imagePath;
      Ok(t.(products := t.products[pid := p.(name := name, price := price, costPrice := costPrice,
                                             notes := notes, imagePath := path)]))
  }

  /** An edit changes the product's name, prices, notes and image path and
      nothing else: its stock, every other product, the ledger and the order
      sheets stay as they were. The image path is the new image when one was
      uploaded, cleared when removal was asked for and the file was there,
      and kept otherwise. */
  lemma UpdateProductEffect(t: Tables, pid: Id, name: string, price: int, costPrice: int, notes: string,
                            newImage: Option<string>, removeImage: bool, imageExists: bool)
    requires UpdateProduct(t, pid, name, price, costPrice, notes, newImage, removeImage, imageExists).Ok?
    ensures var r := UpdateProduct(t, pid, name, price, costPrice, notes, newImage, removeImage, imageExists).value;
      && r.products.Keys == t.products.Keys
      && (forall q :: q in t.products && q != pid ==> r.products[q] == t.products[q])
      && r.products[pid].stock == t.products[pid].stock
      && r.products[pid].name == name && r.products[pid].price == price
      && r.products[pid].costPrice == costPrice && r.products[pid].notes == notes
      && r.products[pid].imagePath ==
           (if newImage.Some? then newImage.value
            else if removeImage && imageExists then ""
            else t.products[pid].imagePath)
      && r.movements == t.movements && r.orders == t.orders
      && r.orderItems == t.orderItems && r.nextId == t.nextId
  {
  }

  /** An edit keeps the sheets consistent, the ledger balanced, the order
      totals matching, and leaves the sales report unchanged: the report reads
      the prices snapshotted into the order items, not the product's current ones. */
  lemma UpdateProductKeepsReport(t: Tables, pid: Id, name: string, price: int, costPrice: int, notes: string,
                                 newImage: Option<string>, removeImage: bool, imageExists: bool)
    requires WellFormed(t)
    requires UpdateProduct(t, pid, name, price, costPrice, notes, newImage, removeImage, imageExists).Ok?
    ensures var r := UpdateProduct(t, pid, name, price, costPrice, notes, newImage, removeImage, imageExists).value;
      && WellFormed(r)
      && (Balanced(t) ==> Balanced(r))
      && (TotalsMatch(t) ==> TotalsMatch(r))
      && TotalRevenue(r) == TotalRevenue(t)
      && GrossProfit(r) == GrossProfit(t)
  {
    var r := UpdateProduct(t, pid, name, price, costPrice, notes, newImage, removeImage, imageExists).value;
    assert r.products.Keys == t.products.Keys;
    assert Joined(r) == Joined(t);
  }

  // ---------------------------------------------------------------------
  // create_order
  // ---------------------------------------------------------------------

  /** The first-pass check of one line against the products sheet as loaded:
      the product must exist and hold at least the requested quantity. */
  function LineCheck(ps: map<Id, Product>, line: LineRequest): Option<Error> {
    if line.productId !in ps then Some(ProductNotFound(line.productId))
    else
      var p := ps[line.productId];
      if p.stock < line.qty then Some(InsufficientStock(p.name, p.stock, line.qty)) else None
  }

  /** The first pass: the error of the first line that fails its check, if any.
      Every line is checked against the same, unmodified stock. */
  function FirstFailure(ps: map<Id, Product>, lines: seq<LineRequest>): (r: Option<Error>)
    ensures r.None? <==> forall j :: 0 <= j < |lines| ==> LineCheck(ps, lines[j]).None?
  {
    if lines == [] then None
    else if LineCheck(ps, lines[0]).Some? then LineCheck(ps, lines[0])
    else FirstFailure(ps, lines[1..])
  }

  /** The error raised is that of the first failing line. */
  lemma {:induction false} FirstFailureAt(ps: map<Id, Product>, lines: seq<LineRequest>, i: nat)
    requires i < |lines|
    requires forall j :: 0 <= j < i ==> LineCheck(ps, lines[j]).None?
    requires LineCheck(ps, lines[i]).Some?
    ensures FirstFailure(ps, lines) == LineCheck(ps, lines[i])
    decreases i
  {
    if i > 0 {
      assert LineCheck(ps, lines[0]).None?;
      FirstFailureAt(ps, lines[1..], i - 1);
    }
  }

  /** What the second pass has built so far: the products sheet with the
      stock taken off, the order item and movement rows, the running total,
      and the next fresh id. */
  datatype Sale = Sale(products: map<Id, Product>, itemRows: seq<OrderItem>,
                       movementRows: seq<StockMovement>, total: int, nextId: Id)

  /** Every line names a product present in the sheet. */
  ghost predicate AllFound(ps: map<Id, Product>, lines: seq<LineRequest>) {
    forall j :: 0 <= j < |lines| ==> lines[j].productId in ps
  }

  /** Sells one line: takes the quantity off the product's current stock,
      writes an order item with the product's current price and cost price,
      and a "Sale" movement of minus the quantity stamped with the order's time. */
  function Sell(s: Sale, orderId: Id, now: Timestamp, line: LineRequest): Sale
    requires line.productId in s.products
  {
    var p := s.products[line.productId];
    Sale(s.products[line.productId := p.(stock := p.stock - line.qty)],
         s.itemRows + [OrderItem(s.nextId, orderId, line.productId, line.qty, p.price, p.costPrice)],
         s.movementRows + [StockMovement(s.nextId + 1, line.productId, -line.qty, SaleReason, now)],
         s.total + p.price * line.qty,
         s.nextId + 2)
  }

  /** The second pass: sells the lines in input order. It sells only
      products that are in the sheet and removes none. */
  function SellAll(start: Sale, orderId: Id, now: Timestamp, lines: seq<LineRequest>): (r: Sale)
    requires AllFound(start.products, lines)
    ensures r.products.Keys == start.products.Keys
    decreases |lines|
  {
    if lines == [] then start
    else
      var prev := SellAll(start, orderId, now, lines[..|lines| - 1]);
      Sell(prev, orderId, now, lines[|lines| - 1])
  }

  /** Only stock changes in the products sheet during the second pass: names,
      prices, notes and images stay as they were. */
  lemma {:induction false} SellAllKeepsProducts(start: Sale, orderId: Id, now: Timestamp, lines: seq<LineRequest>, pid: Id)
    requires AllFound(start.products, lines) && pid in start.products
    ensures var q := SellAll(start, orderId, now, lines).products[pid];
      q == start.products[pid].(stock := q.stock)
    decreases |lines|
  {
    if lines != [] {
      SellAllKeepsProducts(start, orderId, now, lines[..|lines| - 1], pid);
    }
  }

  /** The state the second pass starts from: the order takes the next id. */
  function StartSale(t: Tables): Sale {
    Sale(t.products, [], [], 0, t.nextId + 1)
  }

  /** Places an order: if any line fails its check, the error of the first
      failing line and no change at all; otherwise every line is sold and one
      order header with the accumulated total and the shared timestamp is
      appended, together with the item and movement rows. */
  function CreateOrder(t: Tables, lines: seq<LineRequest>, now: Timestamp): (r: Result<Tables>)
    ensures r.Ok? <==> forall j :: 0 <= j < |lines| ==> LineCheck(t.products, lines[j]).None?
  {
    match FirstFailure(t.products, lines)
    case Some(e) => Err(e)
    case None =>
      var s := SellAll(StartSale(t), t.nextId, now, lines);
      Ok(Tables(s.products, t.orders + [Order(t.nextId, now, s.total)],
                t.orderItems + s.itemRows, t.movements + s.movementRows, s.nextId))
  }

  /** A rejected order reports the first failing line: a missing product, or
      the product's name, available stock and requested quantity. */
  lemma CreateOrderRejects(t: Tables, lines: seq<LineRequest>, now: Timestamp, i: nat)
    requires i < |lines|
    requires forall j :: 0 <= j < i ==> LineCheck(t.products, lines[j]).None?
    requires LineCheck(t.products, lines[i]).Some?
    ensures CreateOrder(t, lines, now) == Err(LineCheck(t.products, lines[i]).value)
    ensures lines[i].productId !in t.products ==>
              CreateOrder(t, lines, now).error == ProductNotFound(lines[i].productId)
    ensures lines[i].productId in t.products ==>
              var p := t.products[lines[i].productId];
              CreateOrder(t, lines, now).error == InsufficientStock(p.name, p.stock, lines[i].qty)
              && p.stock < lines[i].qty
  {
    FirstFailureAt(t.products, lines, i);
  }

  /** Total quantity requested of product `pid` over all lines. */
  function QtyFor(lines: seq<LineRequest>, pid: Id): int {
    if lines == [] then 0
    else
      var last := lines[|lines| - 1];
      QtyFor(lines[..|lines| - 1], pid) + (if last.productId == pid then last.qty else 0)
  }

  /** After the second pass each product's stock is down by the total
      quantity of the lines that name it. */
  lemma {:induction false} SellAllStock(start: Sale, orderId: Id, now: Timestamp, lines: seq<LineRequest>, pid: Id)
    requires AllFound(start.products, lines) && pid in start.products
    ensures SellAll(start, orderId, now, lines).products[pid].stock
              == start.products[pid].stock - QtyFor(lines, pid)
    decreases |lines|
  {
    if lines != [] {
      SellAllStock(start, orderId, now, lines[..|lines| - 1], pid);
    }
  }

  /** The order items the second pass writes, one per line: ids from `base`
      on, every line priced from the products sheet `ps`. */
  function SaleItems(base: Id, orderId: Id, ps: map<Id, Product>, lines: seq<LineRequest>): seq<OrderItem>
    requires AllFound(ps, lines)
  {
    if lines == [] then []
    else
      var n := |lines| - 1;
      var p := ps[lines[n].productId];
      SaleItems(base, orderId, ps, lines[..n])
        + [OrderItem(base + 2 * n, orderId, lines[n].productId, lines[n].qty, p.price, p.costPrice)]
  }

  /** The "Sale" movements the second pass writes, one per line. */
  function SaleMovements(base: Id, now: Timestamp, lines: seq<LineRequest>): seq<StockMovement> {
    if lines == [] then []
    else
      var n := |lines| - 1;
      SaleMovements(base, now, lines[..n])
        + [StockMovement(base + 2 * n + 1, lines[n].productId, -lines[n].qty, SaleReason, now)]
  }

  /** The j-th order item: that line's product and quantity at that line's
      prices in `ps`. */
  lemma {:induction false} SaleItemsAt(base: Id, orderId: Id, ps: map<Id, Product>, lines: seq<LineRequest>, j: nat)
    requires AllFound(ps, lines) && j < |lines|
    ensures |SaleItems(base, orderId, ps, lines)| == |lines|
    ensures SaleItems(base, orderId, ps, lines)[j] ==
              OrderItem(base + 2 * j, orderId, lines[j].productId, lines[j].qty,
                        ps[lines[j].productId].price, ps[lines[j].productId].costPrice)
    decreases |lines|
  {
    var n := |lines| - 1;
    if j < n {
      SaleItemsAt(base, orderId, ps, lines[..n], j);
    } else if n > 0 {
      SaleItemsAt(base, orderId, ps, lines[..n], n - 1);
    }
  }

  /** The j-th movement: minus that line's quantity, reason "Sale". */
  lemma {:induction false} SaleMovementsAt(base: Id, now: Timestamp, lines: seq<LineRequest>, j: nat)
    requires j < |lines|
    ensures |SaleMovements(base, now, lines)| == |lines|
    ensures SaleMovements(base, now, lines)[j] ==
              StockMovement(base + 2 * j + 1, lines[j].productId, -lines[j].qty, SaleReason, now)
    decreases |lines|
  {
    var n := |lines| - 1;
    if j < n {
      SaleMovementsAt(base, now, lines[..n], j);
    } else if n > 0 {
      SaleMovementsAt(base, now, lines[..n], n - 1);
    }
  }

  /** The rows, total and ids the last line of the second pass adds, priced
      from the products as they were when the order started. */
  lemma SellAllLast(start: Sale, orderId: Id, now: Timestamp, lines: seq<LineRequest>)
    requires AllFound(start.products, lines) && lines != []
    ensures var n := |lines| - 1;
      var prev := SellAll(start, orderId, now, lines[..n]);
      var r := SellAll(start, orderId, now, lines);
      var p := start.products[lines[n].productId];
      && r.itemRows == prev.itemRows + [OrderItem(prev.nextId, orderId, lines[n].productId, lines[n].qty, p.price, p.costPrice)]
      && r.movementRows == prev.movementRows + [StockMovement(prev.nextId + 1, lines[n].productId, -lines[n].qty, SaleReason, now)]
      && r.total == prev.total + p.price * lines[n].qty
      && r.nextId == prev.nextId + 2
  {
    var n := |lines| - 1;
    var prev := SellAll(start, orderId, now, lines[..n]);
    assert AllFound(start.products, lines[..n]);
    SellAllKeepsProducts(start, orderId, now, lines[..n], lines[n].productId);
  }

  /** The second pass appends exactly the sale's item and movement rows to
      the ones it started with, pricing every line from the products as they
      were when the order started, and takes two consecutive ids from the
      counter per line. */
  lemma {:induction false} SellAllRows(start: Sale, orderId: Id, now: Timestamp, lines: seq<LineRequest>)
    requires AllFound(start.products, lines)
    ensures var r := SellAll(start, orderId, now, lines);
      && r.nextId == start.nextId + 2 * |lines|
      && r.itemRows == start.itemRows + SaleItems(start.nextId, orderId, start.products, lines)
      && r.movementRows == start.movementRows + SaleMovements(start.nextId, now, lines)
    decreases |lines|
  {
    if lines != [] {
      var n := |lines| - 1;
      var init := lines[..n];
      assert AllFound(start.products, init);
      var prev := SellAll(start, orderId, now, init);
      var r := SellAll(start, orderId, now, lines);
      var p := start.products[lines[n].productId];
      var items := SaleItems(start.nextId, orderId, start.products, init);
      var moves := SaleMovements(start.nextId, now, init);
      SellAllRows(start, orderId, now, init);
      SellAllLast(start, orderId, now, lines);
      var it := OrderItem(start.nextId + 2 * n, orderId, lines[n].productId, lines[n].qty, p.price, p.costPrice);
      var m := StockMovement(start.nextId + 2 * n + 1, lines[n].productId, -lines[n].qty, SaleReason, now);
      assert SaleItems(start.nextId, orderId, start.products, lines) == items + [it];
      assert SaleMovements(start.nextId, now, lines) == moves + [m];
      calc {
        r.itemRows;
        prev.itemRows + [it];
        (start.itemRows + items) + [it];
        start.itemRows + (items + [it]);
      }
      calc {
        r.movementRows;
        prev.movementRows + [m];
        (start.movementRows + moves) + [m];
        start.movementRows + (moves + [m]);
      }
    }
  }

  /** The movements the second pass writes take, for each product, exactly
      the quantity sold of it off its ledger. */
  lemma {:induction false} SellAllLedger(start: Sale, orderId: Id, now: Timestamp, lines: seq<LineRequest>, pid: Id)
    requires AllFound(start.products, lines)
    ensures Ledger(SellAll(start, orderId, now, lines).movementRows, pid)
              == Ledger(start.movementRows, pid) - QtyFor(lines, pid)
    decreases |lines|
  {
    if lines != [] {
      var init := lines[..|lines| - 1];
      var prev := SellAll(start, orderId, now, init);
      SellAllLedger(start, orderId, now, init, pid);
      var r := SellAll(start, orderId, now, lines);
      assert r.movementRows[..|r.movementRows| - 1] == prev.movementRows;
    }
  }

  /** The running total is the revenue of the order items written. */
  lemma {:induction false} SellAllTotal(start: Sale, orderId: Id, now: Timestamp, lines: seq<LineRequest>)
    requires AllFound(start.products, lines)
    requires start.total == Revenue(start.itemRows)
    ensures SellAll(start, orderId, now, lines).total == Revenue(SellAll(start, orderId, now, lines).itemRows)
    decreases |lines|
  {
    if lines != [] {
      var init := lines[..|lines| - 1];
      var line := lines[|lines| - 1];
      var prev := SellAll(start, orderId, now, init);
      SellAllTotal(start, orderId, now, init);
      var r := SellAll(start, orderId, now, lines);
      var p := prev.products[line.productId];
      assert r.itemRows[..|r.itemRows| - 1] == prev.itemRows;
      assert LineRevenue(r.itemRows[|r.itemRows| - 1]) == p.price * line.qty;
    }
  }

  /** The order items and movements an accepted order appends. */
  function NewItems(t: Tables, lines: seq<LineRequest>, now: Timestamp): seq<OrderItem>
    requires AllFound(t.products, lines)
  {
    SellAll(StartSale(t), t.nextId, now, lines).itemRows
  }

  function NewMovements(t: Tables, lines: seq<LineRequest>, now: Timestamp): seq<StockMovement>
    requires AllFound(t.products, lines)
  {
    SellAll(StartSale(t), t.nextId, now, lines).movementRows
  }

  /** The rows an accepted order appends are the sale's rows, numbered from
      the id after the order's own. */
  lemma NewRowsAreSaleRows(t: Tables, lines: seq<LineRequest>, now: Timestamp)
    requires AllFound(t.products, lines)
    ensures NewItems(t, lines, now) == SaleItems(t.nextId + 1, t.nextId, t.products, lines)
    ensures NewMovements(t, lines, now) == SaleMovements(t.nextId + 1, now, lines)
  {
    var start := StartSale(t);
    SellAllRows(start, t.nextId, now, lines);
    assert start.itemRows == [] && start.movementRows == [];
  }

  lemma AcceptedLinesFound(t: Tables, lines: seq<LineRequest>, now: Timestamp)
    requires CreateOrder(t, lines, now).Ok?
    ensures AllFound(t.products, lines)
  {
    forall j | 0 <= j < |lines| ensures lines[j].productId in t.products {
      assert LineCheck(t.products, lines[j]).None?;
    }
  }

  /** The products sheet after an accepted order: each product's stock down
      by the quantity ordered of it, nothing else changed. */
  lemma CreateOrderProducts(t: Tables, lines: seq<LineRequest>, now: Timestamp)
    requires CreateOrder(t, lines, now).Ok?
    ensures var r := CreateOrder(t, lines, now).value;
      && r.products.Keys == t.products.Keys
      && (forall pid :: pid in t.products ==>
            r.products[pid] == t.products[pid].(stock := t.products[pid].stock - QtyFor(lines, pid)))
  {
    AcceptedLinesFound(t, lines, now);
    var start := StartSale(t);
    var s := SellAll(start, t.nextId, now, lines);
    assert CreateOrder(t, lines, now).value.products == s.products;
    forall pid | pid in t.products
      ensures s.products[pid] == t.products[pid].(stock := t.products[pid].stock - QtyFor(lines, pid))
    {
      SellAllStock(start, t.nextId, now, lines, pid);
      SellAllKeepsProducts(start, t.nextId, now, lines, pid);
    }
  }

  /** The order items an accepted order appends, line by line in input
      order, each at its product's prices when the order started. */
  lemma NewItemsAt(t: Tables, lines: seq<LineRequest>, now: Timestamp)
    requires AllFound(t.products, lines)
    ensures var items := NewItems(t, lines, now);
      && |items| == |lines|
      && (forall j :: 0 <= j < |lines| ==>
            items[j] == OrderItem(t.nextId + 1 + 2 * j, t.nextId, lines[j].productId, lines[j].qty,
                                  t.products[lines[j].productId].price,
                                  t.products[lines[j].productId].costPrice))
  {
    NewRowsAreSaleRows(t, lines, now);
    var items := SaleItems(t.nextId + 1, t.nextId, t.products, lines);
    if lines == [] {
      assert items == [];
    }
    forall j | 0 <= j < |lines|
      ensures |items| == |lines|
      ensures items[j] == OrderItem(t.nextId + 1 + 2 * j, t.nextId, lines[j].productId, lines[j].qty,
                                    t.products[lines[j].productId].price,
                                    t.products[lines[j].productId].costPrice)
    {
      SaleItemsAt(t.nextId + 1, t.nextId, t.products, lines, j);
    }
  }

  /** The movements an accepted order appends, line by line in input order. */
  lemma NewMovementsAt(t: Tables, lines: seq<LineRequest>, now: Timestamp)
    requires AllFound(t.products, lines)
    ensures var moves := NewMovements(t, lines, now);
      && |moves| == |lines|
      && (forall j :: 0 <= j < |lines| ==>
            moves[j] == StockMovement(t.nextId + 2 + 2 * j, lines[j].productId, -lines[j].qty, SaleReason, now))
  {
    NewRowsAreSaleRows(t, lines, now);
    var moves := SaleMovements(t.nextId + 1, now, lines);
    if lines == [] {
      assert moves == [];
    }
    forall j | 0 <= j < |lines|
      ensures |moves| == |lines|
      ensures moves[j] == StockMovement(t.nextId + 2 + 2 * j, lines[j].productId, -lines[j].qty, SaleReason, now)
    {
      SaleMovementsAt(t.nextId + 1, now, lines, j);
    }
  }

  /** An accepted order appends exactly one order header: the next id, the
      order's timestamp, and as its total the revenue of the items written. */
  lemma CreateOrderHeader(t: Tables, lines: seq<LineRequest>, now: Timestamp)
    requires CreateOrder(t, lines, now).Ok?
    ensures AllFound(t.products, lines)
    ensures CreateOrder(t, lines, now).value.orders
              == t.orders + [Order(t.nextId, now, Revenue(NewItems(t, lines, now)))]
  {
    AcceptedLinesFound(t, lines, now);
    SellAllTotal(StartSale(t), t.nextId, now, lines);
  }

  /** What an accepted order writes: each product's stock down by the
      quantity ordered of it and nothing else in the products sheet changed;
      exactly one order header, with the next id, the order's timestamp and
      the revenue of the items as its total; per line, in input order, one
      order item with the product's prices at sale time and one "Sale"
      movement of minus the quantity with the same timestamp. */
  lemma CreateOrderEffect(t: Tables, lines: seq<LineRequest>, now: Timestamp)
    requires CreateOrder(t, lines, now).Ok?
    ensures AllFound(t.products, lines)
    ensures var r := CreateOrder(t, lines, now).value;
      var items := NewItems(t, lines, now);
      var moves := NewMovements(t, lines, now);
      && r.products.Keys == t.products.Keys
      && (forall pid :: pid in t.products ==>
            r.products[pid] == t.products[pid].(stock := t.products[pid].stock - QtyFor(lines, pid)))
      && r.orders == t.orders + [Order(t.nextId, now, Revenue(items))]
      && r.orderItems == t.orderItems + items
      && r.movements == t.movements + moves
      && r.nextId == t.nextId + 1 + 2 * |lines|
      && |items| == |lines| && |moves| == |lines|
      && (forall j :: 0 <= j < |lines| ==>
            items[j] == OrderItem(t.nextId + 1 + 2 * j, t.nextId, lines[j].productId, lines[j].qty,
                                  t.products[lines[j].productId].price,
                                  t.products[lines[j].productId].costPrice))
      && (forall j :: 0 <= j < |lines| ==>
            moves[j] == StockMovement(t.nextId + 2 + 2 * j, lines[j].productId, -lines[j].qty, SaleReason, now))
  {
    AcceptedLinesFound(t, lines, now);
    CreateOrderProducts(t, lines, now);
    NewItemsAt(t, lines, now);
    NewMovementsAt(t, lines, now);
    CreateOrderHeader(t, lines, now);
    SellAllRows(StartSale(t), t.nextId, now, lines);
  }

  /** The order items an accepted order appends refer to existing products
      and to the new order, and carry distinct ids above the order's id and
      below the counter it leaves behind. */
  lemma NewItemsWellFormed(t: Tables, lines: seq<LineRequest>, now: Timestamp)
    requires AllFound(t.products, lines)
    ensures var items := NewItems(t, lines, now);
      && ItemsWellFormed(items, t.products.Keys, {t.nextId}, t.nextId + 1 + 2 * |lines|)
      && forall it :: it in items ==> t.nextId < it.id
  {
    NewItemsAt(t, lines, now);
    var items := NewItems(t, lines, now);
    forall it | it in items
      ensures it.productId in t.products && it.orderId == t.nextId
      ensures t.nextId < it.id < t.nextId + 1 + 2 * |lines|
    {
      var j :| 0 <= j < |items| && items[j] == it;
    }
  }

  /** The movements an accepted order appends refer to existing products and
      carry distinct ids above the order's id and below the counter it leaves
      behind. */
  lemma NewMovementsWellFormed(t: Tables, lines: seq<LineRequest>, now: Timestamp)
    requires AllFound(t.products, lines)
    ensures var moves := NewMovements(t, lines, now);
      && MovementsWellFormed(moves, t.products.Keys, t.nextId + 1 + 2 * |lines|)
      && forall m :: m in moves ==> t.nextId < m.id
  {
    NewMovementsAt(t, lines, now);
    var moves := NewMovements(t, lines, now);
    forall m | m in moves
      ensures m.productId in t.products && t.nextId < m.id < t.nextId + 1 + 2 * |lines|
    {
      var j :| 0 <= j < |moves| && moves[j] == m;
    }
  }

  /** On consistent sheets an accepted order's ids are fresh: the order id is
      no earlier order's, and no earlier item or movement shares an id with
      a row the order writes. */
  lemma CreateOrderFreshIds(t: Tables, lines: seq<LineRequest>, now: Timestamp)
    requires WellFormed(t)
    requires CreateOrder(t, lines, now).Ok?
    ensures AllFound(t.products, lines)
    ensures t.nextId !in OrderIds(t.orders)
    ensures forall it, it2 :: it in t.orderItems && it2 in NewItems(t, lines, now) ==> it.id != it2.id
    ensures forall m, m2 :: m in t.movements && m2 in NewMovements(t, lines, now) ==> m.id != m2.id
  {
    AcceptedLinesFound(t, lines, now);
    NewItemsWellFormed(t, lines, now);
    NewMovementsWellFormed(t, lines, now);
    assert t.nextId !in OrderIds(t.orders) by {
      forall o | o in t.orders ensures o.id != t.nextId {
        var k :| 0 <= k < |t.orders| && t.orders[k] == o;
      }
    }
  }

  /** An accepted order keeps the sheets consistent: product ids as they
      were, the new order id and every new row id fresh, and every new row
      referring to an existing product and to the new order. */
  lemma CreateOrderKeepsWellFormed(t: Tables, lines: seq<LineRequest>, now: Timestamp)
    requires WellFormed(t)
    requires CreateOrder(t, lines, now).Ok?
    ensures WellFormed(CreateOrder(t, lines, now).value)
  {
    AcceptedLinesFound(t, lines, now);
    var r := CreateOrder(t, lines, now).value;
    var s := SellAll(StartSale(t), t.nextId, now, lines);
    var items := NewItems(t, lines, now);
    var moves := NewMovements(t, lines, now);
    SellAllRows(StartSale(t), t.nextId, now, lines);
    assert r == Tables(s.products, t.orders + [Order(t.nextId, now, s.total)],
                       t.orderItems + items, t.movements + moves, s.nextId);
    OrdersAppend(t.orders, Order(t.nextId, now, s.total), t.nextId, r.nextId);
    NewItemsWellFormed(t, lines, now);
    ItemsAppend(t.orderItems, items, t.products.Keys, t.products.Keys,
                OrderIds(t.orders), OrderIds(r.orders), t.nextId, r.nextId);
    NewMovementsWellFormed(t, lines, now);
    MovementsAppend(t.movements, moves, t.products.Keys, t.products.Keys, t.nextId, r.nextId);
  }

  /** An accepted order keeps every product's stock equal to its ledger:
      each sold line takes the same quantity off both. */
  lemma CreateOrderKeepsBalance(t: Tables, lines: seq<LineRequest>, now: Timestamp)
    requires Balanced(t)
    requires CreateOrder(t, lines, now).Ok?
    ensures Balanced(CreateOrder(t, lines, now).value)
  {
    var r := CreateOrder(t, lines, now).value;
    CreateOrderProducts(t, lines, now);
    var moves := NewMovements(t, lines, now);
    assert r.movements == t.movements + moves;
    forall pid | pid in r.products ensures r.products[pid].stock == Ledger(r.movements, pid) {
      SellAllLedger(StartSale(t), t.nextId, now, lines, pid);
      LedgerConcat(t.movements, moves, pid);
    }
  }

  /** An accepted order keeps every order header's total equal to the
      revenue of its items: the old orders gain no items, and the new
      header's total is the revenue of exactly the items written with it. */
  lemma CreateOrderKeepsTotals(t: Tables, lines: seq<LineRequest>, now: Timestamp)
    requires WellFormed(t) && TotalsMatch(t)
    requires CreateOrder(t, lines, now).Ok?
    ensures TotalsMatch(CreateOrder(t, lines, now).value)
  {
    var r := CreateOrder(t, lines, now).value;
    CreateOrderHeader(t, lines, now);
    NewItemsWellFormed(t, lines, now);
    var items := NewItems(t, lines, now);
    assert r.orderItems == t.orderItems + items;
    var oid := t.nextId;
    forall it | it in t.orderItems ensures it.orderId != oid {
      var o :| o in t.orders && o.id == it.orderId;
      var j :| 0 <= j < |t.orders| && t.orders[j] == o;
    }
    forall k | 0 <= k < |r.orders|
      ensures r.orders[k].total == OrderRevenue(r.orderItems, r.orders[k].id)
    {
      var id := r.orders[k].id;
      OrderRevenueConcat(t.orderItems, items, id);
      if k < |t.orders| {
        assert id != oid;
        OrderRevenueOfOthers(items, id);
      } else {
        OrderRevenueOfOthers(t.orderItems, oid);
        OrderRevenueOfOwn(items, oid);
      }
    }
  }

  /** Placing the same order twice makes two orders with different ids and
      takes the quantities off the stock twice. */
  lemma CreateOrderTwice(t: Tables, lines: seq<LineRequest>, now1: Timestamp, now2: Timestamp)
    requires CreateOrder(t, lines, now1).Ok?
    requires CreateOrder(CreateOrder(t, lines, now1).value, lines, now2).Ok?
    ensures var t1 := CreateOrder(t, lines, now1).value;
      var t2 := CreateOrder(t1, lines, now2).value;
      && |t2.orders| == |t.orders| + 2
      && t2.orders[|t.orders|].id != t2.orders[|t.orders| + 1].id
      && t2.products.Keys == t.products.Keys
      && forall pid :: pid in t.products ==>
           t2.products[pid].stock == t.products[pid].stock - 2 * QtyFor(lines, pid)
  {
    var t1 := CreateOrder(t, lines, now1).value;
    CreateOrderHeader(t, lines, now1);
    CreateOrderProducts(t, lines, now1);
    CreateOrderHeader(t1, lines, now2);
    CreateOrderProducts(t1, lines, now2);
    assert t1.nextId > t.nextId by {
      NewRowsAreSaleRows(t, lines, now1);
      SellAllRows(StartSale(t), t.nextId, now1, lines);
    }
  }

  /** No two lines name the same product, as on the POS page. */
  ghost predicate DistinctLines(lines: seq<LineRequest>) {
    forall i, j :: 0 <= i < j < |lines| ==> lines[i].productId != lines[j].productId
  }

  /** With distinct products, the quantity ordered of a product is that of its one line. */
  lemma {:induction false} QtyForDistinct(lines: seq<LineRequest>, j: nat)
    requires DistinctLines(lines) && j < |lines|
    ensures QtyFor(lines, lines[j].productId) == lines[j].qty
    decreases |lines|
  {
    var init := lines[..|lines| - 1];
    if j < |lines| - 1 {
      QtyForDistinct(init, j);
    } else {
      QtyForNone(init, lines[j].productId);
    }
  }

  /** A product no line names is ordered zero times. */
  lemma {:induction false} QtyForNone(lines: seq<LineRequest>, pid: Id)
    requires forall j :: 0 <= j < |lines| ==> lines[j].productId != pid
    ensures QtyFor(lines, pid) == 0
    decreases |lines|
  {
    if lines != [] {
      QtyForNone(lines[..|lines| - 1], pid);
    }
  }

  /** With distinct products per order, the check of the first pass is the
      whole story: every product an accepted order sells ends with a
      non-negative stock, and every product it does not sell keeps its stock. */
  lemma DistinctOrderStockFloor(t: Tables, lines: seq<LineRequest>, now: Timestamp)
    requires DistinctLines(lines)
    requires CreateOrder(t, lines, now).Ok?
    ensures var r := CreateOrder(t, lines, now).value;
      forall pid :: pid in t.products ==>
        if exists j :: 0 <= j < |lines| && lines[j].productId == pid
        then r.products[pid].stock >= 0
        else r.products[pid].stock == t.products[pid].stock
  {
    var r := CreateOrder(t, lines, now).value;
    CreateOrderProducts(t, lines, now);
    forall pid | pid in t.products
      ensures if exists j :: 0 <= j < |lines| && lines[j].productId == pid
              then r.products[pid].stock >= 0
              else r.products[pid].stock == t.products[pid].stock
    {
      if j :| 0 <= j < |lines| && lines[j].productId == pid {
        QtyForDistinct(lines, j);
        assert LineCheck(t.products, lines[j]).None?;
      } else {
        QtyForNone(lines, pid);
      }
    }
  }

  /** The check compares each line with the stock as loaded, not with what
      earlier lines of the same order take: two lines of one unit each for a
      product with one unit in stock both pass, and the sale leaves it at -1. */
  lemma DuplicateLinesOversell(now: Timestamp)
    ensures var shirt := Product("Shirt", 100, 60, 1, "", "");
      var t := Tables(map[0 := shirt], [], [], [StockMovement(1, 0, 1, InitialReason, now)], 2);
      var lines := [LineRequest(0, 1), LineRequest(0, 1)];
      && CreateOrder(t, lines, now).Ok?
      && CreateOrder(t, lines, now).value.products[0].stock == -1
  {
    var shirt := Product("Shirt", 100, 60, 1, "", "");
    var t := Tables(map[0 := shirt], [], [], [StockMovement(1, 0, 1, InitialReason, now)], 2);
    var lines := [LineRequest(0, 1), LineRequest(0, 1)];
    assert LineCheck(t.products, lines[0]).None?;
    assert LineCheck(t.products, lines[1]).None?;
    CreateOrderProducts(t, lines, now);
    assert lines[..1] == [lines[0]];
    assert QtyFor(lines, 0) == 2;
  }

  // ---------------------------------------------------------------------
  // any sequence of operations
  // ---------------------------------------------------------------------

  /** One user action on the shop; manual stock adjustments take the default
      path. */
  datatype Op =
    | AddProductOp(name: string, price: int, costPrice: int, stock: int, notes: string,
                   imagePath: string, now: Timestamp)
    | UpdateProductOp(pid: Id, name: string, price: int, costPrice: int, notes: string,
                      newImage: Option<string>, removeImage: bool, imageExists: bool)
    | AdjustStockOp(pid: Id, change: int, reason: string, now: Timestamp)
    | CreateOrderOp(lines: seq<LineRequest>, now: Timestamp)

  /** The sheets after one action; an action that raises leaves them as they were. */
  function Apply(t: Tables, op: Op): Tables {
    match op
    case AddProductOp(name, price, costPrice, stock, notes, imagePath, now) =>
      AddProduct(t, name, price, costPrice, stock, notes, imagePath, now)
    case UpdateProductOp(pid, name, price, costPrice, notes, newImage, removeImage, imageExists) =>
      var r := UpdateProduct(t, pid, name, price, costPrice, notes, newImage, removeImage, imageExists);
      if r.Ok? then r.value else t
    case AdjustStockOp(pid, change, reason, now) =>
      var r := AddStockMovement(t, pid, change, reason, now, false);
      if r.Ok? then r.value else t
    case CreateOrderOp(lines, now) =>
      var r := CreateOrder(t, lines, now);
      if r.Ok? then r.value else t
  }

  function Run(t: Tables, ops: seq<Op>): Tables
    decreases |ops|
  {
    if ops == [] then t else Run(Apply(t, ops[0]), ops[1..])
  }

  /** The ledger invariant: after any sequence of actions starting from
      consistent sheets, every product's stock still equals the sum of its
      movements, and every order's total the revenue of its items. */
  lemma {:induction false} RunKeepsLedger(t: Tables, ops: seq<Op>)
    requires WellFormed(t) && Balanced(t) && TotalsMatch(t)
    ensures WellFormed(Run(t, ops)) && Balanced(Run(t, ops)) && TotalsMatch(Run(t, ops))
    decreases |ops|
  {
    if ops != [] {
      var t1 := Apply(t, ops[0]);
      match ops[0] {
      case AddProductOp(name, price, costPrice, stock, notes, imagePath, now) =>
        AddProductKeepsBalance(t, name, price, costPrice, stock, notes, imagePath, now);
        AddProductEffect(t, name, price, costPrice, stock, notes, imagePath, now);
      case UpdateProductOp(pid, name, price, costPrice, notes, newImage, removeImage, imageExists) =>
        if UpdateProduct(t, pid, name, price, costPrice, notes, newImage, removeImage, imageExists).Ok? {
          UpdateProductKeepsReport(t, pid, name, price, costPrice, notes, newImage, removeImage, imageExists);
        }
      case AdjustStockOp(pid, change, reason, now) =>
        if AddStockMovement(t, pid, change, reason, now, false).Ok? {
          AddStockMovementKeepsBalance(t, pid, change, reason, now);
          AddStockMovementEffect(t, pid, change, reason, now, false);
        }
      case CreateOrderOp(lines, now) =>
        if CreateOrder(t, lines, now).Ok? {
          CreateOrderKeepsWellFormed(t, lines, now);
          CreateOrderKeepsBalance(t, lines, now);
          CreateOrderKeepsTotals(t, lines, now);
        }
      }
      RunKeepsLedger(t1, ops[1..]);
    }
  }
}
