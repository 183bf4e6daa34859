/** The shop's write operations as they run: the four sheets are fields of
    one object, and each operation updates them in place, line by line where
    the shop loops. Every method is proved to leave the sheets exactly as the
    matching function of `Inventory` says, and to keep the ledger consistent. */
module Shop {
  import opened Tables
  import opened Reports
  import opened Inventory

  class Shop {
    var products: map<Id, Product>
    var orders: seq<Order>
    var orderItems: seq<OrderItem>
    var movements: seq<StockMovement>
    var nextId: Id

    /** The four sheets as they stand. */
    function Snapshot(): Tables
      reads this
    {
      Tables(products, orders, orderItems, movements, nextId)
    }

    /** The sheets are consistent, every product's stock equals its ledger,
        and every order's total equals the revenue of its items. */
    ghost predicate Valid()
      reads this
    {
      WellFormed(Snapshot()) && Balanced(Snapshot()) && TotalsMatch(Snapshot())
    }

    /** A shop whose sheets hold only their header rows. */
    constructor ()
      ensures Snapshot() == Tables(map[], [], [], [], 0)
      ensures Valid()
    {
      products := map[];
      orders := [];
      orderItems := [];
      movements := [];
      nextId := 0;
    }

    /** add_stock_movement: returns the new movement's id, or the error of an
        unknown product with the sheets untouched. */
    method AddStockMovement(pid: Id, change: int, reason: string, now: Timestamp, skipProductUpdate: bool)
      returns (r: Result<Id>)
      modifies this
      ensures var spec := Inventory.AddStockMovement(old(Snapshot()), pid, change, reason, now, skipProductUpdate);
        && (spec.Ok? ==> r == Ok(old(nextId)) && Snapshot() == spec.value)
        && (spec.Err? ==> r == Err(spec.error) && Snapshot() == old(Snapshot()))
      ensures old(Valid()) && !skipProductUpdate ==> Valid()
    {
      if pid !in products {
        return Err(ProductNotFound(pid));
      }
      ghost var before := Snapshot();
      if !skipProductUpdate {
        var p := products[pid];
        products := products[pid := p.(stock := p.stock + change)];
      }
      var id := nextId;
      movements := movements + [StockMovement(id, pid, change, reason, now)];
      nextId := nextId + 1;
      r := Ok(id);
      if !skipProductUpdate && WellFormed(before) && Balanced(before) && TotalsMatch(before) {
        AddStockMovementKeepsBalance(before, pid, change, reason, now);
        AddStockMovementEffect(before, pid, change, reason, now, false);
      }
    }

    /** add_product: stores the product under a fresh id, then seeds its
        ledger through the ledger-only path; returns the id and the name. */
    method AddProduct(name: string, price: int, costPrice: int, stock: int, notes: string,
                      imagePath: string, now: Timestamp)
      returns (id: Id, productName: string)
      modifies this
      ensures Snapshot() == Inventory.AddProduct(old(Snapshot()), name, price, costPrice, stock, notes, imagePath, now)
      ensures id == old(nextId) && id in products && productName == name
      ensures old(Valid()) ==> Valid()
    {
      ghost var before := Snapshot();
      id := nextId;
      products := products[id := Product(name, price, costPrice, stock, imagePath, notes)];
      nextId := nextId + 1;
      var _ := AddStockMovement(id, stock, InitialReason, now, true);
      productName := name;
      if WellFormed(before) && Balanced(before) && TotalsMatch(before) {
        AddProductKeepsBalance(before, name, price, costPrice, stock, notes, imagePath, now);
        AddProductEffect(before, name, price, costPrice, stock, notes, imagePath, now);
      }
    }

    /** update_product: first clears the image path when removal is asked
        for and the file is there, then takes the new image's path if one was
        uploaded, then overwrites name, prices and notes. Returns the id and
        the new name. */
    method UpdateProduct(pid: Id, name: string, price: int, costPrice: int, notes: string,
                         newImage: Option<string>, removeImage: bool, imageExists: bool)
      returns (r: Result<(Id, string)>)
      modifies this
      ensures var spec := Inventory.UpdateProduct(old(Snapshot()), pid, name, price, costPrice, notes,
                                                  newImage, removeImage, imageExists);
        && (spec.Ok? ==> r == Ok((pid, name)) && Snapshot() == spec.value)
        && (spec.Err? ==> r == Err(spec.error) && Snapshot() == old(Snapshot()))
      ensures old(Valid()) ==> Valid()
    {
      if pid !in products {
        return Err(ProductNotFound(pid));
      }
      ghost var before := Snapshot();
      var p := products[pid];
      var path := p.imagePath;
      if removeImage && path != "" && imageExists {
        path := "";
      }
      if newImage.Some? {
        path := newImage.value;
      }
      products := products[pid := p.(name := name, price := price, costPrice := costPrice,
                                     notes := notes, imagePath := path)];
      r := Ok((pid, name));
      if WellFormed(before) {
        UpdateProductKeepsReport(before, pid, name, price, costPrice, notes, newImage, removeImage, imageExists);
      }
    }

    /** create_order: checks every line against the stock as loaded and
        raises the first failure; otherwise sells the lines in order and
        appends the order header. Returns the order's id and total. */
    method CreateOrder(lines: seq<LineRequest>, now: Timestamp) returns (r: Result<(Id, int)>)
      modifies this
      ensures var spec := Inventory.CreateOrder(old(Snapshot()), lines, now);
        && (spec.Ok? ==> Snapshot() == spec.value
                         && r == Ok((old(nextId), spec.value.orders[|old(orders)|].total)))
        && (spec.Err? ==> r == Err(spec.error) && Snapshot() == old(Snapshot()))
      ensures old(Valid()) ==> Valid()
    {
      ghost var before := Snapshot();
      var failure := CheckLines(products, lines);
      if failure.Some? {
        return Err(failure.value);
      }
      AcceptedLinesFound(before, lines, now);
      var orderId := nextId;
      var s := SellLines(StartSale(Snapshot()), orderId, now, lines);
      products := s.products;
      orders := orders + [Order(orderId, now, s.total)];
      orderItems := orderItems + s.itemRows;
      movements := movements + s.movementRows;
      nextId := s.nextId;
      r := Ok((orderId, s.total));
      if WellFormed(before) && Balanced(before) && TotalsMatch(before) {
        CreateOrderKeepsWellFormed(before, lines, now);
        CreateOrderKeepsBalance(before, lines, now);
        CreateOrderKeepsTotals(before, lines, now);
      }
    }
  }

  /** The first loop of create_order: stops at the first line whose product
      is missing or short of stock. */
  method CheckLines(ps: map<Id, Product>, lines: seq<LineRequest>) returns (failure: Option<Error>)
    ensures failure == FirstFailure(ps, lines)
  {
    var i := 0;
    while i < |lines|
      invariant 0 <= i <= |lines|
      invariant forall j :: 0 <= j < i ==> LineCheck(ps, lines[j]).None?
    {
      var line := lines[i];
      if line.productId !in ps {
        FirstFailureAt(ps, lines, i);
        return Some(ProductNotFound(line.productId));
      }
      var p := ps[line.productId];
      if p.stock < line.qty {
        FirstFailureAt(ps, lines, i);
        return Some(InsufficientStock(p.name, p.stock, line.qty));
      }
      i := i + 1;
    }
    return None;
  }

  /** The second loop of create_order: per line, takes the quantity off the
      product's stock and adds an order item and a "Sale" movement. */
  method SellLines(start: Sale, orderId: Id, now: Timestamp, lines: seq<LineRequest>) returns (s: Sale)
    requires AllFound(start.products, lines)
    ensures s == SellAll(start, orderId, now, lines)
  {
    var ps: map<Id, Product> := start.products;
    var itemRows := start.itemRows;
    var movementRows := start.movementRows;
    var total := start.total;
    var next: Id := start.nextId;
    var i := 0;
    while i < |lines|
      invariant 0 <= i <= |lines|
      invariant Sale(ps, itemRows, movementRows, total, next) == SellAll(start, orderId, now, lines[..i])
    {
      var line := lines[i];
      assert lines[..i + 1][..i] == lines[..i];
      var p := ps[line.productId];
      ps := ps[line.productId := p.(stock := p.stock - line.qty)];
      itemRows := itemRows + [OrderItem(next, orderId, line.productId, line.qty, p.price, p.costPrice)];
      total := total + p.price * line.qty;
      movementRows := movementRows + [StockMovement(next + 1, line.productId, -line.qty, SaleReason, now)];
      next := next + 2;
      i := i + 1;
    }
    assert lines[..|lines|] == lines;
    s := Sale(ps, itemRows, movementRows, total, next);
  }
}
