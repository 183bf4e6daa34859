/** The four sheets of the shop (products, orders, order_items,
    stock_movements) held in memory, the stock ledger, and the consistency
    conditions the shop's writes keep. */
module Tables {

  /** Row identifiers. The shop draws them from uuid4; here they come from a
      counter kept with the tables, which is what makes them fresh. */
  type Id = nat

  /** The ISO timestamp string the shop stamps on rows; opaque here. */
  type Timestamp = string

  datatype Option<T> = None | Some(value: T)

  /** A product row; its id is the key it is stored under. */
  datatype Product = Product(
    name: string, price: int, costPrice: int, stock: int, imagePath: string, notes: string)

  datatype Order = Order(id: Id, createdAt: Timestamp, total: int)

  /** One sold line; price and costPrice are the product's prices at sale time. */
  datatype OrderItem = OrderItem(
    id: Id, orderId: Id, productId: Id, qty: int, price: int, costPrice: int)

  datatype StockMovement = StockMovement(
    id: Id, productId: Id, change: int, reason: string, timestamp: Timestamp)

  /** All four sheets, plus the source of fresh ids. Products are keyed by
      their id, as every lookup in the shop is by id. */
  datatype Tables = Tables(
    products: map<Id, Product>, orders: seq<Order>, orderItems: seq<OrderItem>,
    movements: seq<StockMovement>, nextId: Id)

  /** The errors the operations raise (ValueError in the shop). */
  datatype Error =
    | ProductNotFound(id: Id)
    | InsufficientStock(name: string, available: int, requested: int)

  datatype Result<T> = Ok(value: T) | Err(error: Error)

  function OrderIds(os: seq<Order>): set<Id> {
    set o | o in os :: o.id
  }

  /** The sum of the `change` of every movement of product `pid`. */
  function Ledger(ms: seq<StockMovement>, pid: Id): int {
    if ms == [] then 0
    else
      var last := ms[|ms| - 1];
      Ledger(ms[..|ms| - 1], pid) + (if last.productId == pid then last.change else 0)
  }

  /** Appending movements adds their changes to each product's ledger. */
  lemma {:induction false} LedgerConcat(a: seq<StockMovement>, b: seq<StockMovement>, pid: Id)
    ensures Ledger(a + b, pid) == Ledger(a, pid) + Ledger(b, pid)
    decreases |b|
  {
    if b == [] {
      assert a + b == a;
    } else {
      assert (a + b)[..|a + b| - 1] == a + b[..|b| - 1];
      LedgerConcat(a, b[..|b| - 1], pid);
    }
  }

  /** Movements of other products leave a product's ledger at zero. */
  lemma {:induction false} LedgerOfOthers(ms: seq<StockMovement>, pid: Id)
    requires forall m :: m in ms ==> m.productId != pid
    ensures Ledger(ms, pid) == 0
    decreases |ms|
  {
    if ms != [] {
      assert forall m :: m in ms[..|ms| - 1] ==> m in ms;
      LedgerOfOthers(ms[..|ms| - 1], pid);
    }
  }

  /** Every product's stock equals the sum of its movements' changes. */
  ghost predicate Balanced(t: Tables) {
    forall pid :: pid in t.products ==> t.products[pid].stock == Ledger(t.movements, pid)
  }

  /** No two orders share an id. */
  ghost predicate DistinctOrders(os: seq<Order>) {
    forall i, j :: 0 <= i < j < |os| ==> os[i].id != os[j].id
  }

  /** The orders sheet: ids below the id counter and no two orders sharing one. */
  ghost predicate OrdersWellFormed(os: seq<Order>, nextId: Id) {
    && (forall k :: 0 <= k < |os| ==> os[k].id < nextId)
    && DistinctOrders(os)
  }

  /** The stock_movements sheet: every row refers to a product in `pids`,
      has an id below the id counter, and no two rows share an id. */
  ghost predicate MovementsWellFormed(ms: seq<StockMovement>, pids: set<Id>, nextId: Id) {
    && (forall m :: m in ms ==> m.productId in pids && m.id < nextId)
    && (forall i, j :: 0 <= i < j < |ms| ==> ms[i].id != ms[j].id)
  }

  /** The order_items sheet: every row refers to a product in `pids` and an
      order in `oids`, has an id below the id counter, and no two rows share
      an id. */
  ghost predicate ItemsWellFormed(items: seq<OrderItem>, pids: set<Id>, oids: set<Id>, nextId: Id) {
    && (forall it :: it in items ==> it.productId in pids && it.orderId in oids && it.id < nextId)
    && (forall i, j :: 0 <= i < j < |items| ==> items[i].id != items[j].id)
  }

  /** The consistency the shop's writes keep: every id of every sheet is
      below the id counter (so the counter's next value is fresh) and unique
      within its sheet, and every movement and order item refers to an
      existing product (and order). */
  ghost predicate WellFormed(t: Tables) {
    && (forall pid :: pid in t.products ==> pid < t.nextId)
    && OrdersWellFormed(t.orders, t.nextId)
    && MovementsWellFormed(t.movements, t.products.Keys, t.nextId)
    && ItemsWellFormed(t.orderItems, t.products.Keys, OrderIds(t.orders), t.nextId)
  }

  /** Appending an order whose id is at or above the old counter and below
      the new one keeps the orders sheet well formed. */
  lemma OrdersAppend(os: seq<Order>, o: Order, n: Id, n2: Id)
    requires OrdersWellFormed(os, n) && n <= o.id < n2
    ensures OrdersWellFormed(os + [o], n2)
    ensures OrderIds(os + [o]) == OrderIds(os) + {o.id}
  {
    var r := os + [o];
    forall i, j | 0 <= i < j < |r| ensures r[i].id != r[j].id {
      if j == |os| {
        assert r[i] == os[i];
      }
    }
  }

  /** Appending movement rows whose ids are at or above the old counter keeps
      the movements sheet well formed, for a larger set of products and a
      larger counter. */
  lemma MovementsAppend(a: seq<StockMovement>, b: seq<StockMovement>, pa: set<Id>, pids: set<Id>, n: Id, n2: Id)
    requires MovementsWellFormed(a, pa, n) && pa <= pids && n <= n2
    requires MovementsWellFormed(b, pids, n2)
    requires forall m :: m in b ==> n <= m.id
    ensures MovementsWellFormed(a + b, pids, n2)
  {
    var r := a + b;
    forall m | m in r ensures m.productId in pids && m.id < n2 {
      assert m in a || m in b;
    }
    forall i, j | 0 <= i < j < |r| ensures r[i].id != r[j].id {
      if i < |a| && j >= |a| {
        assert r[i] in a && r[j] == b[j - |a|] && b[j - |a|] in b;
      } else if i >= |a| {
        assert r[i] == b[i - |a|] && r[j] == b[j - |a|];
      }
    }
  }

  /** Appending order item rows whose ids are at or above the old counter
      keeps the order_items sheet well formed, for larger sets of products
      and orders and a larger counter. */
  lemma ItemsAppend(a: seq<OrderItem>, b: seq<OrderItem>, pa: set<Id>, pids: set<Id>,
                    oa: set<Id>, oids: set<Id>, n: Id, n2: Id)
    requires ItemsWellFormed(a, pa, oa, n) && pa <= pids && oa <= oids && n <= n2
    requires ItemsWellFormed(b, pids, oids, n2)
    requires forall it :: it in b ==> n <= it.id
    ensures ItemsWellFormed(a + b, pids, oids, n2)
  {
    var r := a + b;
    forall it | it in r ensures it.productId in pids && it.orderId in oids && it.id < n2 {
      assert it in a || it in b;
    }
    forall i, j | 0 <= i < j < |r| ensures r[i].id != r[j].id {
      if i < |a| && j >= |a| {
        assert r[i] in a && r[j] == b[j - |a|] && b[j - |a|] in b;
      } else if i >= |a| {
        assert r[i] == b[i - |a|] && r[j] == b[j - |a|];
      }
    }
  }
}
