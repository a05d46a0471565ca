/** The stock bookkeeping of routes/orderRoutes.js: creating an order checks every line against
  * the stock, normalises payment, prices and titles, then takes each line's quantity off its
  * product and writes the sale records; moving an order into 'Cancelled' puts the quantities
  * back. The database becomes a `Store` object whose fields the operations update. */
module Orders {
  import opened Wrappers
  import opened Calendar
  import Aggregation

  type ProductId = Aggregation.ProductId

  datatype Product = Product(title: string, price: real, category: string, stock: int)

  /** What a request may say about payment; each part may be missing. */
  datatype PaymentInput = PaymentInput(paymentMethod: Option<string>, paid: Option<bool>, transactionId: Option<string>)

  datatype Payment = Payment(paymentMethod: string, paid: bool, transactionId: Option<string>)

  /** One requested line; `price` None stands for a value that is not a number. */
  datatype LineInput = LineInput(product: ProductId, quantity: int, price: Option<real>, title: string)

  /** A line as stored with the order. */
  datatype Line = Line(product: ProductId, quantity: int, price: real, title: string)

  /** The request body; `items` None stands for a missing or non-array value. */
  datatype OrderInput = OrderInput(items: Option<seq<LineInput>>, payment: Option<PaymentInput>)

  datatype Order = Order(items: seq<Line>, payment: Payment, status: string, createdAt: Timestamp)

  datatype ProductSale = ProductSale(productId: ProductId, date: Timestamp, quantitySold: int, stockLeft: int,
                                     category: string, productTitle: string, price: real)

  datatype CategorySale = CategorySale(productId: ProductId, date: Timestamp, category: string, description: string,
                                       quantitySold: int)

  datatype OrderError = NoItems | ProductNotFound(product: ProductId) | InsufficientStock(title: string, available: int, requested: int)

  const Cancelled: string := "Cancelled"
  const Confirmed: string := "Confirmed"

  // ---------------------------------------------------------------------------------------------
  // Checkout, stated on values

  /** `method || 'COD'`, and paid when the method is 'Direct' or the request says `paid: true`. */
  function PaymentOf(input: Option<PaymentInput>): (pay: Payment)
    ensures input.None? ==> pay == Payment("COD", false, None)
    ensures (input.None? || input.value.paymentMethod.None? || input.value.paymentMethod == Some("")) ==> pay.paymentMethod == "COD"
    ensures input.Some? && input.value.paymentMethod.Some? && input.value.paymentMethod.value != "" ==>
      pay.paymentMethod == input.value.paymentMethod.value
    ensures pay.transactionId == (if input.Some? then input.value.transactionId else None)
    ensures pay.paid <==> pay.paymentMethod == "Direct" || (input.Some? && input.value.paid == Some(true))
  {
    var name := if input.Some? && input.value.paymentMethod.Some? && input.value.paymentMethod.value != "" then input.value.paymentMethod.value else "COD";
    Payment(name, name == "Direct" || (input.Some? && input.value.paid == Some(true)),
            if input.Some? then input.value.transactionId else None)
  }

  /** The line with the product's price when the requested one is not a number, and the
    * product's title when the requested one is empty. */
  function Normalized(item: LineInput, product: Product): Line
  {
    Line(item.product, item.quantity, if item.price.Some? then item.price.value else product.price,
         if item.title == "" then product.title else item.title)
  }

  /** Why one line cannot be ordered, if it cannot: its product is unknown, or has less stock
    * than the line asks for. */
  function LineError(products: map<ProductId, Product>, item: LineInput): Option<OrderError>
  {
    if item.product !in products then Some(ProductNotFound(item.product))
    else if products[item.product].stock < item.quantity then
      Some(InsufficientStock(products[item.product].title, products[item.product].stock, item.quantity))
    else None
  }

  /** The validation loop: the first failing line's error, or all lines normalised. Each line is
    * checked against the stock as it is before the order. */
  function Validate(products: map<ProductId, Product>, items: seq<LineInput>): Result<seq<Line>, OrderError>
  {
    if |items| == 0 then Ok([])
    else
      match Validate(products, items[..|items| - 1])
      case Err(e) => Err(e)
      case Ok(lines) =>
        var item := items[|items| - 1];
        match LineError(products, item)
        case Some(e) => Err(e)
        case None => Ok(lines + [Normalized(item, products[item.product])])
  }

  /** An order request: no items at all, or the validation of its lines. */
  function Checkout(products: map<ProductId, Product>, input: OrderInput): Result<seq<Line>, OrderError>
  {
    if input.items.None? || |input.items.value| == 0 then Err(NoItems) else Validate(products, input.items.value)
  }

  /** Validation succeeds exactly when every line names a known product with at least the
    * requested stock; then the lines come back one for one, with the price and title
    * fallbacks and nothing else changed. */
  lemma {:induction false} ValidateOk(products: map<ProductId, Product>, items: seq<LineInput>)
    ensures Validate(products, items).Ok? <==>
      forall i :: 0 <= i < |items| ==> LineError(products, items[i]).None?
    ensures Validate(products, items).Ok? ==>
      var lines := Validate(products, items).value;
      |lines| == |items|
      && forall i :: 0 <= i < |items| ==>
        (var p := products[items[i].product];
         lines[i].product == items[i].product && lines[i].quantity == items[i].quantity
         && p.stock >= items[i].quantity
         && lines[i].price == (if items[i].price.Some? then items[i].price.value else p.price)
         && lines[i].title == (if items[i].title == "" then p.title else items[i].title))
    decreases |items|
  {
    if |items| > 0 {
      var init := items[..|items| - 1];
      ValidateOk(products, init);
      assert forall i :: 0 <= i < |init| ==> init[i] == items[i];
    }
  }

  /** A failed validation reports the first failing line. */
  lemma {:induction false} ValidateErr(products: map<ProductId, Product>, items: seq<LineInput>)
    ensures Validate(products, items).Err? ==>
      exists k :: 0 <= k < |items| && LineError(products, items[k]) == Some(Validate(products, items).error)
        && forall i :: 0 <= i < k ==> LineError(products, items[i]).None?
    decreases |items|
  {
    if |items| > 0 {
      var init := items[..|items| - 1];
      ValidateErr(products, init);
      ValidateOk(products, init);
      assert forall i :: 0 <= i < |init| ==> init[i] == items[i];
      if Validate(products, init).Err? {
        var k :| 0 <= k < |init| && LineError(products, init[k]) == Some(Validate(products, init).error)
          && forall i :: 0 <= i < k ==> LineError(products, init[i]).None?;
        assert LineError(products, items[k]) == Some(Validate(products, items).error);
      } else if Validate(products, items).Err? {
        assert LineError(products, items[|items| - 1]) == Some(Validate(products, items).error);
      }
    }
  }

  /** `stock - quantity` for a known product. */
  function Take(products: map<ProductId, Product>, line: Line): map<ProductId, Product>
  {
    if line.product in products then
      products[line.product := products[line.product].(stock := products[line.product].stock - line.quantity)]
    else products
  }

  /** `stock + quantity` for a product that still exists; others are skipped. */
  function Give(products: map<ProductId, Product>, line: Line): map<ProductId, Product>
  {
    if line.product in products then
      products[line.product := products[line.product].(stock := products[line.product].stock + line.quantity)]
    else products
  }

  /** The stock after the decrement loop: line by line, each reading the stock as the previous
    * lines left it. */
  function Decremented(products: map<ProductId, Product>, lines: seq<Line>): (r: map<ProductId, Product>)
    ensures r.Keys == products.Keys
  {
    if |lines| == 0 then products else Take(Decremented(products, lines[..|lines| - 1]), lines[|lines| - 1])
  }

  /** The stock after the restore loop of a cancellation. */
  function Restored(products: map<ProductId, Product>, lines: seq<Line>): (r: map<ProductId, Product>)
    ensures r.Keys == products.Keys
  {
    if |lines| == 0 then products else Give(Restored(products, lines[..|lines| - 1]), lines[|lines| - 1])
  }

  /** The total quantity the lines ask of product p. */
  function QuantityOf(lines: seq<Line>, p: ProductId): int
  {
    if |lines| == 0 then 0
    else QuantityOf(lines[..|lines| - 1], p) + (if lines[|lines| - 1].product == p then lines[|lines| - 1].quantity else 0)
  }

  /** After the decrement loop each product's stock is down by the sum of its lines' quantities;
    * the set of products and everything but the stock stay as they were. */
  lemma {:induction false} DecrementedStock(products: map<ProductId, Product>, lines: seq<Line>)
    ensures Decremented(products, lines).Keys == products.Keys
    ensures forall p :: p in products ==>
      Decremented(products, lines)[p] == products[p].(stock := products[p].stock - QuantityOf(lines, p))
    decreases |lines|
  {
    if |lines| > 0 {
      DecrementedStock(products, lines[..|lines| - 1]);
    }
  }

  /** Restoring adds each product's quantities back; missing products are skipped. */
  lemma {:induction false} RestoredStock(products: map<ProductId, Product>, lines: seq<Line>)
    ensures Restored(products, lines).Keys == products.Keys
    ensures forall p :: p in products ==>
      Restored(products, lines)[p] == products[p].(stock := products[p].stock + QuantityOf(lines, p))
    decreases |lines|
  {
    if |lines| > 0 {
      RestoredStock(products, lines[..|lines| - 1]);
    }
  }

  /** Cancelling an order right after creating it gives back exactly the stock before it. */
  lemma CreateThenCancel(products: map<ProductId, Product>, lines: seq<Line>)
    ensures Restored(Decremented(products, lines), lines) == products
  {
    var taken := Decremented(products, lines);
    DecrementedStock(products, lines);
    RestoredStock(taken, lines);
    var back := Restored(taken, lines);
    forall p | p in products
      ensures back[p] == products[p]
    {
      var q := products[p];
      assert taken[p] == q.(stock := q.stock - QuantityOf(lines, p));
      assert back[p] == taken[p].(stock := taken[p].stock + QuantityOf(lines, p));
    }
    assert back.Keys == products.Keys;
  }

  /** Every line is checked against the stock before the order, so two lines of 3 units of a
    * product with 5 in stock both pass, and the stock ends at -1. */
  lemma DuplicateLinesOverdraw()
    ensures var products := map[1 := Product("Mug", 10.0, "Kitchen", 5)];
      var items := [LineInput(1, 3, None, ""), LineInput(1, 3, None, "")];
      Validate(products, items).Ok?
      && Decremented(products, Validate(products, items).value)[1].stock == -1
  {
    var products := map[1 := Product("Mug", 10.0, "Kitchen", 5)];
    var items := [LineInput(1, 3, None, ""), LineInput(1, 3, None, "")];
    ValidateOk(products, items);
    var lines := Validate(products, items).value;
    DecrementedStock(products, lines);
    assert lines[..1][..0] == [];
    assert QuantityOf(lines[..1], 1) == 3;
  }

  /** Lines for `p` and the total they ask: with one line per product, the total is that
    * line's quantity. */
  lemma {:induction false} QuantityOfDistinct(lines: seq<Line>, k: nat)
    requires k < |lines|
    requires forall i, j :: 0 <= i < j < |lines| ==> lines[i].product != lines[j].product
    ensures QuantityOf(lines, lines[k].product) == lines[k].quantity
    decreases |lines|
  {
    var init := lines[..|lines| - 1];
    if k < |lines| - 1 {
      QuantityOfDistinct(init, k);
    } else {
      QuantityOfAbsent(init, lines[k].product);
    }
  }

  lemma {:induction false} QuantityOfAbsent(lines: seq<Line>, p: ProductId)
    requires forall i :: 0 <= i < |lines| ==> lines[i].product != p
    ensures QuantityOf(lines, p) == 0
    decreases |lines|
  {
    if |lines| > 0 {
      QuantityOfAbsent(lines[..|lines| - 1], p);
    }
  }

  /** With at most one line per product an accepted order never leaves an ordered product with
    * negative stock: the overdraw needs repeated lines. */
  lemma DistinctLinesKeepStock(products: map<ProductId, Product>, items: seq<LineInput>)
    requires forall i, j :: 0 <= i < j < |items| ==> items[i].product != items[j].product
    requires Validate(products, items).Ok?
    ensures forall k :: 0 <= k < |items| ==>
      items[k].product in products && Decremented(products, Validate(products, items).value)[items[k].product].stock >= 0
  {
    ValidateOk(products, items);
    var lines := Validate(products, items).value;
    DecrementedStock(products, lines);
    forall k | 0 <= k < |items|
      ensures items[k].product in products && Decremented(products, lines)[items[k].product].stock >= 0
    {
      QuantityOfDistinct(lines, k);
    }
  }

  /** The two records the decrement loop writes for one line, given the product as the earlier
    * lines left it. */
  function ProductSaleOf(product: Product, line: Line, date: Timestamp): ProductSale
  {
    ProductSale(line.product, date, line.quantity, product.stock - line.quantity, product.category, product.title, line.price)
  }

  function CategorySaleOf(product: Product, line: Line, date: Timestamp): CategorySale
  {
    CategorySale(line.product, date, product.category, product.title, line.quantity)
  }

  predicate Known(products: map<ProductId, Product>, lines: seq<Line>)
  {
    forall i :: 0 <= i < |lines| ==> lines[i].product in products
  }

  /** The product sale records, one per line. */
  function ProductSales(products: map<ProductId, Product>, lines: seq<Line>, date: Timestamp): (r: seq<ProductSale>)
    requires Known(products, lines)
    ensures |r| == |lines|
  {
    if |lines| == 0 then []
    else
      var init := lines[..|lines| - 1];
      var before := Decremented(products, init);
      ProductSales(products, init, date) + [ProductSaleOf(before[lines[|lines| - 1].product], lines[|lines| - 1], date)]
  }

  /** The category sale records, one per line. */
  function CategorySales(products: map<ProductId, Product>, lines: seq<Line>, date: Timestamp): (r: seq<CategorySale>)
    requires Known(products, lines)
    ensures |r| == |lines|
  {
    if |lines| == 0 then []
    else
      var init := lines[..|lines| - 1];
      var before := Decremented(products, init);
      CategorySales(products, init, date) + [CategorySaleOf(before[lines[|lines| - 1].product], lines[|lines| - 1], date)]
  }

  /** The k-th records are those of line k over the stock the earlier lines left. */
  lemma {:induction false} SaleRecordAt(products: map<ProductId, Product>, lines: seq<Line>, date: Timestamp, k: nat)
    requires Known(products, lines) && k < |lines|
    ensures lines[k].product in Decremented(products, lines[..k])
    ensures ProductSales(products, lines, date)[k] == ProductSaleOf(Decremented(products, lines[..k])[lines[k].product], lines[k], date)
    ensures CategorySales(products, lines, date)[k] == CategorySaleOf(Decremented(products, lines[..k])[lines[k].product], lines[k], date)
    decreases |lines|
  {
    var init := lines[..|lines| - 1];
    if k < |lines| - 1 {
      assert Known(products, init);
      SaleRecordAt(products, init, date, k);
      assert init[..k] == lines[..k];
    } else {
      assert lines[..k] == init;
    }
  }

  /** One product sale and one category sale per line, both dated by the order and counting the
    * line's quantity under the product's category; each product sale's `stockLeft` is the
    * product's stock right after its own line. */
  lemma SaleRecordsFacts(products: map<ProductId, Product>, lines: seq<Line>, date: Timestamp, k: nat)
    requires Known(products, lines) && k < |lines|
    ensures var ps := ProductSales(products, lines, date)[k];
      var cs := CategorySales(products, lines, date)[k];
      ps.productId == lines[k].product == cs.productId && ps.quantitySold == lines[k].quantity == cs.quantitySold
      && ps.date == date == cs.date && ps.price == lines[k].price
      && ps.category == cs.category == products[lines[k].product].category
      && ps.productTitle == cs.description == products[lines[k].product].title
      && lines[k].product in Decremented(products, lines[..k + 1])
      && ps.stockLeft == Decremented(products, lines[..k + 1])[lines[k].product].stock
  {
    SaleRecordAt(products, lines, date, k);
    DecrementedStock(products, lines[..k]);
    assert lines[..k + 1][..k] == lines[..k];
  }

  /** The product sale of a product's last line carries the product's final stock. */
  lemma LastSaleRecord(products: map<ProductId, Product>, lines: seq<Line>, date: Timestamp, k: nat)
    requires Known(products, lines) && k < |lines|
    requires forall j :: k < j < |lines| ==> lines[j].product != lines[k].product
    ensures ProductSales(products, lines, date)[k].stockLeft == Decremented(products, lines)[lines[k].product].stock
  {
    SaleRecordsFacts(products, lines, date, k);
    DecrementedStock(products, lines[..k + 1]);
    DecrementedStock(products, lines);
    QuantityTail(lines, k + 1, lines[k].product);
  }

  /** Lines after position m that do not mention p do not change its total. */
  lemma {:induction false} QuantityTail(lines: seq<Line>, m: nat, p: ProductId)
    requires m <= |lines|
    requires forall j :: m <= j < |lines| ==> lines[j].product != p
    ensures QuantityOf(lines, p) == QuantityOf(lines[..m], p)
    decreases |lines|
  {
    if |lines| > m {
      var init := lines[..|lines| - 1];
      QuantityTail(init, m, p);
      assert init[..m] == lines[..m];
    } else {
      assert lines[..m] == lines;
    }
  }

  /** The stock a status change leaves: only a move into 'Cancelled' from another status
    * restores the order's quantities. */
  function AfterStatus(products: map<ProductId, Product>, lines: seq<Line>, oldStatus: string, status: string)
    : map<ProductId, Product>
  {
    if status == Cancelled && oldStatus != Cancelled then Restored(products, lines) else products
  }

  /** Cancelling an already cancelled order, or any change that is not into 'Cancelled', keeps
    * the stock; but an order reopened after a cancellation and cancelled again gives its
    * quantities back a second time. */
  lemma StatusChanges(products: map<ProductId, Product>, lines: seq<Line>, other: string, p: ProductId)
    requires other != Cancelled && p in products
    ensures AfterStatus(products, lines, Cancelled, Cancelled) == products
    ensures AfterStatus(products, lines, Cancelled, other) == products
    ensures var once := AfterStatus(products, lines, other, Cancelled);
      var twice := AfterStatus(AfterStatus(once, lines, Cancelled, other), lines, other, Cancelled);
      p in twice && twice[p].stock == products[p].stock + 2 * QuantityOf(lines, p)
  {
    RestoredStock(products, lines);
    RestoredStock(Restored(products, lines), lines);
  }

  // ---------------------------------------------------------------------------------------------
  // The store

  /** The product table, the orders (an order's id is its position) and the sale records. */
  class Store {
    var products: map<ProductId, Product>
    var orders: seq<Order>
    var productSales: seq<ProductSale>
    var categorySales: seq<CategorySale>

    constructor(products: map<ProductId, Product>)
      ensures this.products == products && orders == [] && productSales == [] && categorySales == []
    {
      this.products := products;
      orders := [];
      productSales := [];
      categorySales := [];
    }

    /** The validation loop over the current stock. */
    method ValidateLines(items: seq<LineInput>) returns (r: Result<seq<Line>, OrderError>)
      ensures r == Validate(products, items)
    {
      var lines: seq<Line> := [];
      var i := 0;
      while i < |items|
        invariant 0 <= i <= |items|
        invariant Validate(products, items[..i]) == Ok(lines)
      {
        var item := items[i];
        assert items[..i + 1][..i] == items[..i];
        if item.product !in products {
          r := Err(ProductNotFound(item.product));
          ValidateExtends(products, items, i + 1);
          return;
        }
        var product := products[item.product];
        if product.stock < item.quantity {
          r := Err(InsufficientStock(product.title, product.stock, item.quantity));
          ValidateExtends(products, items, i + 1);
          return;
        }
        lines := lines + [Normalized(item, product)];
        i := i + 1;
      }
      assert items[..i] == items;
      r := Ok(lines);
    }

    /** The decrement loop, applied to the store. */
    method Fulfil(lines: seq<Line>, date: Timestamp)
      requires Known(products, lines)
      modifies this
      ensures products == Decremented(old(products), lines)
      ensures productSales == old(productSales) + ProductSales(old(products), lines, date)
      ensures categorySales == old(categorySales) + CategorySales(old(products), lines, date)
      ensures orders == old(orders)
    {
      var stock, sales, categoryRecords := Fulfilment(products, lines, date);
      products, productSales, categorySales := stock, productSales + sales, categorySales + categoryRecords;
    }

    /** `POST /`: an order without items, or with a line that names an unknown product or asks
      * for more than its stock, is refused and changes nothing. Otherwise the order is stored
      * 'Confirmed' with its normalised lines and payment, each product's stock drops by its
      * lines' quantities, and one product and one category sale are written per line. */
    method CreateOrder(input: OrderInput, now: Timestamp) returns (r: Result<nat, OrderError>)
      modifies this
      ensures Checkout(old(products), input).Err? ==>
        r == Err(Checkout(old(products), input).error)
        && products == old(products) && orders == old(orders)
        && productSales == old(productSales) && categorySales == old(categorySales)
      ensures Checkout(old(products), input).Ok? ==>
        var lines := Checkout(old(products), input).value;
        Known(old(products), lines)
        && r == Ok(|old(orders)|)
        && orders == old(orders) + [Order(lines, PaymentOf(input.payment), Confirmed, now)]
        && products == Decremented(old(products), lines)
        && productSales == old(productSales) + ProductSales(old(products), lines, now)
        && categorySales == old(categorySales) + CategorySales(old(products), lines, now)
    {
      if input.items.None? || |input.items.value| == 0 {
        return Err(NoItems);
      }
      var payment := PaymentOf(input.payment);
      var checked := ValidateLines(input.items.value);
      if checked.Err? {
        return Err(checked.error);
      }
      var lines := checked.value;
      ValidateOk(products, input.items.value);
      assert Known(products, lines);
      r := Ok(|orders|);
      orders := orders + [Order(lines, payment, Confirmed, now)];
      Fulfil(lines, now);
    }

    /** The restore loop: every line's quantity back to its product, if it still exists. */
    method Restock(lines: seq<Line>)
      modifies this
      ensures products == Restored(old(products), lines)
      ensures orders == old(orders) && productSales == old(productSales) && categorySales == old(categorySales)
    {
      var i := 0;
      while i < |lines|
        invariant 0 <= i <= |lines|
        invariant products == Restored(old(products), lines[..i])
        invariant orders == old(orders) && productSales == old(productSales) && categorySales == old(categorySales)
      {
        var line := lines[i];
        assert lines[..i + 1][..i] == lines[..i];
        if line.product in products {
          var product := products[line.product];
          products := products[line.product := product.(stock := product.stock + line.quantity)];
        }
        i := i + 1;
      }
      assert lines[..i] == lines;
    }

    /** `PATCH /:id/status`: an unknown order is reported; otherwise its status is overwritten,
      * and only a move into 'Cancelled' from another status puts its quantities back. */
    method UpdateStatus(id: nat, status: string) returns (found: bool)
      modifies this
      ensures found <==> id < |old(orders)|
      ensures !found ==> orders == old(orders) && products == old(products)
      ensures found ==>
        orders == old(orders)[id := old(orders)[id].(status := status)]
        && products == AfterStatus(old(products), old(orders)[id].items, old(orders)[id].status, status)
      ensures found && old(orders)[id].status == Cancelled ==> products == old(products)
      ensures productSales == old(productSales) && categorySales == old(categorySales)
    {
      if id >= |orders| {
        return false;
      }
      var order := orders[id];
      orders := orders[id := order.(status := status)];
      if status == Cancelled && order.status != Cancelled {
        Restock(order.items);
      }
      found := true;
    }
  }

  /** The decrement loop: each line takes its quantity off its product, reading the stock the
    * earlier lines left, and writes its two sale records. */
  method Fulfilment(products: map<ProductId, Product>, lines: seq<Line>, date: Timestamp)
    returns (stock: map<ProductId, Product>, sales: seq<ProductSale>, categoryRecords: seq<CategorySale>)
    requires Known(products, lines)
    ensures stock == Decremented(products, lines)
    ensures sales == ProductSales(products, lines, date)
    ensures categoryRecords == CategorySales(products, lines, date)
  {
    stock, sales, categoryRecords := products, [], [];
    var i := 0;
    while i < |lines|
      invariant 0 <= i <= |lines|
      invariant stock == Decremented(products, lines[..i])
      invariant sales == ProductSales(products, lines[..i], date)
      invariant categoryRecords == CategorySales(products, lines[..i], date)
    {
      var line := lines[i];
      FulfilStep(products, lines, i, date, stock, sales, categoryRecords);
      var product := stock[line.product];
      sales := sales + [ProductSaleOf(product, line, date)];
      categoryRecords := categoryRecords + [CategorySaleOf(product, line, date)];
      stock := stock[line.product := product.(stock := product.stock - line.quantity)];
      i := i + 1;
    }
    assert lines[..i] == lines;
  }

  /** One more line of the decrement loop: its stock change and its two records. */
  lemma FulfilStep(products: map<ProductId, Product>, lines: seq<Line>, i: nat, date: Timestamp,
                   stock: map<ProductId, Product>, sales: seq<ProductSale>, categoryRecords: seq<CategorySale>)
    requires Known(products, lines) && i < |lines|
    requires stock == Decremented(products, lines[..i])
    requires sales == ProductSales(products, lines[..i], date)
    requires categoryRecords == CategorySales(products, lines[..i], date)
    ensures lines[i].product in stock
    ensures var p := stock[lines[i].product];
      stock[lines[i].product := p.(stock := p.stock - lines[i].quantity)] == Decremented(products, lines[..i + 1])
      && sales + [ProductSaleOf(p, lines[i], date)] == ProductSales(products, lines[..i + 1], date)
      && categoryRecords + [CategorySaleOf(p, lines[i], date)] == CategorySales(products, lines[..i + 1], date)
  {
    assert lines[..i + 1][..i] == lines[..i];
    assert lines[..i + 1][i] == lines[i];
  }

  /** An early exit of the validation loop decides the whole validation. */
  lemma {:induction false} ValidateExtends(products: map<ProductId, Product>, items: seq<LineInput>, n: nat)
    requires n <= |items| && Validate(products, items[..n]).Err?
    ensures Validate(products, items) == Validate(products, items[..n])
    decreases |items| - n
  {
    if n < |items| {
      assert items[..n + 1][..n] == items[..n];
      ValidateExtends(products, items, n + 1);
    } else {
      assert items[..n] == items;
    }
  }
}
