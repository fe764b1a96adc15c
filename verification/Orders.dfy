/** Creating and cancelling orders: request checks, stock arithmetic and the two transactions,
    as functions of the tables. */
module Orders {
  import opened Domain
  import opened Tables

  datatype Line = Line(product: int, quantity: int)

  datatype RequestError = Empty | BadQuantity | DuplicateProduct

  datatype CreateResult =
    | Created(order: nat)
    | Existing(order: nat)
    | ProductNotFound
    | InsufficientStock

  datatype CancelResult =
    | CancelDone
    | NoSuchOrder
    | AlreadyCancelled
    | NotCancellable
    | PaymentInProgress

  datatype Reservation = Reserved(products: map<int, Product>, items: seq<Item>) | Rejected(missing: bool)

  // ----- request checks

  predicate Seen(lines: seq<Line>, product: int) {
    exists i | 0 <= i < |lines| :: lines[i].product == product
  }

  /** The first complaint of the validation loop, if any. */
  function CheckLines(lines: seq<Line>): Option<RequestError> {
    if lines == [] then None
    else
      var before := CheckLines(lines[..|lines| - 1]);
      if before.Some? then before
      else if Last(lines).quantity <= 0 then Some(BadQuantity)
      else if Seen(lines[..|lines| - 1], Last(lines).product) then Some(DuplicateProduct)
      else None
  }

  function CheckRequest(lines: seq<Line>): Option<RequestError> {
    if lines == [] then Some(Empty) else CheckLines(lines)
  }

  ghost predicate GoodLines(lines: seq<Line>) {
    && (forall i | 0 <= i < |lines| :: lines[i].quantity > 0)
    && (forall i, j | 0 <= i < j < |lines| :: lines[i].product != lines[j].product)
  }

  /** The checks accept exactly the requests with positive quantities and distinct products. */
  lemma {:induction false} CheckLinesIsGoodLines(lines: seq<Line>)
    ensures CheckLines(lines).None? <==> GoodLines(lines)
  {
    if lines != [] {
      var init := lines[..|lines| - 1];
      CheckLinesIsGoodLines(init);
      if GoodLines(lines) {
        assert GoodLines(init);
      } else if GoodLines(init) && Last(lines).quantity > 0 {
        var i, j :| 0 <= i < j < |lines| && lines[i].product == lines[j].product;
        assert init[i] == lines[i];
        assert j == |lines| - 1;
      }
    }
  }

  /** The first line to complain about: all before it are fine, and it has no positive quantity, or else names a
      product again. */
  ghost predicate ComplainsAt(lines: seq<Line>, n: nat, e: RequestError) {
    && n < |lines| && GoodLines(lines[..n])
    && match e
       case BadQuantity => lines[n].quantity <= 0
       case DuplicateProduct => lines[n].quantity > 0 && Seen(lines[..n], lines[n].product)
       case Empty => false
  }

  /** The complaint of the check is that of the first bad line. */
  lemma {:induction false} ComplaintIsFirst(lines: seq<Line>, e: RequestError)
    ensures CheckLines(lines) == Some(e) <==> exists n :: ComplainsAt(lines, n, e)
  {
    if lines != [] {
      var last := |lines| - 1;
      var init := lines[..last];
      ComplaintIsFirst(init, e);
      CheckLinesIsGoodLines(init);
      forall n | 0 <= n < last ensures ComplainsAt(lines, n, e) <==> ComplainsAt(init, n, e) {
        assert init[..n] == lines[..n] && init[n] == lines[n];
      }
      if CheckLines(init).Some? {
        BadPrefix(lines, last);
        assert !ComplainsAt(lines, last, e);
      }
      forall n | last < n ensures !ComplainsAt(lines, n, e) {}
      if CheckLines(init).None? {
        forall n: nat | n < last ensures !ComplainsAt(init, n, e) {}
        assert CheckLines(lines) == Some(e) <==> ComplainsAt(lines, last, e);
      }
    }
  }

  lemma BadPrefix(lines: seq<Line>, n: nat)
    requires n <= |lines| && CheckLines(lines[..n]).Some?
    ensures !GoodLines(lines[..n])
  {
    CheckLinesIsGoodLines(lines[..n]);
  }

  // ----- sorting by product

  function Insert(line: Line, sorted: seq<Line>): seq<Line> {
    if sorted == [] || Last(sorted).product <= line.product then sorted + [line]
    else Insert(line, sorted[..|sorted| - 1]) + [Last(sorted)]
  }

  function SortLines(lines: seq<Line>): seq<Line> {
    if lines == [] then [] else Insert(Last(lines), SortLines(lines[..|lines| - 1]))
  }

  ghost predicate SortedByProduct(lines: seq<Line>) {
    forall i, j | 0 <= i < j < |lines| :: lines[i].product <= lines[j].product
  }

  lemma {:induction false} InsertPermutes(line: Line, sorted: seq<Line>)
    ensures multiset(Insert(line, sorted)) == multiset(sorted) + multiset{line}
  {
    if sorted != [] && !(Last(sorted).product <= line.product) {
      InsertPermutes(line, sorted[..|sorted| - 1]);
      assert sorted == sorted[..|sorted| - 1] + [Last(sorted)];
    }
  }

  lemma {:induction false} InsertBounded(line: Line, sorted: seq<Line>, bound: int)
    requires line.product <= bound && forall i | 0 <= i < |sorted| :: sorted[i].product <= bound
    ensures forall i | 0 <= i < |Insert(line, sorted)| :: Insert(line, sorted)[i].product <= bound
  {
    if sorted != [] && !(Last(sorted).product <= line.product) {
      InsertBounded(line, sorted[..|sorted| - 1], bound);
    }
  }

  lemma {:induction false} InsertKeepsOrder(line: Line, sorted: seq<Line>)
    requires SortedByProduct(sorted)
    ensures SortedByProduct(Insert(line, sorted))
  {
    if sorted != [] && !(Last(sorted).product <= line.product) {
      var init := sorted[..|sorted| - 1];
      InsertKeepsOrder(line, init);
      InsertBounded(line, init, Last(sorted).product);
    }
  }

  /** sort.Slice by product: the result is ordered and holds the same lines. */
  lemma {:induction false} SortLinesSorts(lines: seq<Line>)
    ensures SortedByProduct(SortLines(lines))
    ensures multiset(SortLines(lines)) == multiset(lines)
  {
    if lines != [] {
      var init := lines[..|lines| - 1];
      SortLinesSorts(init);
      InsertKeepsOrder(Last(lines), SortLines(init));
      InsertPermutes(Last(lines), SortLines(init));
      assert lines == init + [Last(lines)];
    }
  }

  // ----- stock

  /** The loop over items: price read, stock deducted if it suffices, item row added. */
  function Reserve(products: map<int, Product>, lines: seq<Line>): Reservation {
    if lines == [] then Reserved(products, [])
    else
      var before := Reserve(products, lines[..|lines| - 1]);
      if before.Rejected? then before
      else
        var line := Last(lines);
        if line.product !in before.products then Rejected(true)
        else if before.products[line.product].stock < line.quantity then Rejected(false)
        else
          var p := before.products[line.product];
          Reserved(before.products[line.product := p.(stock := p.stock - line.quantity)],
                   before.items + [Item(line.product, line.quantity, p.price)])
  }

  /** The first line that fails decides. */
  lemma {:induction false} ReserveStops(products: map<int, Product>, lines: seq<Line>, n: nat)
    requires n <= |lines| && Reserve(products, lines[..n]).Rejected?
    ensures Reserve(products, lines) == Reserve(products, lines[..n])
    decreases |lines|
  {
    if n < |lines| {
      var init := lines[..|lines| - 1];
      assert init[..n] == lines[..n];
      ReserveStops(products, init, n);
    } else {
      assert lines[..n] == lines;
    }
  }

  /** What an order holds of one product. */
  function Held(items: seq<Item>, product: int): int {
    if items == [] then 0
    else Held(items[..|items| - 1], product) + (if Last(items).product == product then Last(items).quantity else 0)
  }

  predicate Mentions(items: seq<Item>, product: int) {
    exists i | 0 <= i < |items| :: items[i].product == product
  }

  /** UPDATE ... FROM changes a product row once, with one of the matching item rows. */
  function PickQuantity(items: seq<Item>, product: int): int {
    if items == [] then 0
    else if Last(items).product == product then Last(items).quantity
    else PickQuantity(items[..|items| - 1], product)
  }

  function Restore(products: map<int, Product>, items: seq<Item>): map<int, Product> {
    map p | p in products ::
      if Mentions(items, p) then products[p].(stock := products[p].stock + PickQuantity(items, p)) else products[p]
  }

  // ----- the two transactions

  /** OrderRepo.CreateOrder inside the transaction manager: any error rolls everything back. */
  function CreateTx(db: Db, lines: seq<Line>, key: string): (Db, CreateResult) {
    if key != "" && key in db.created then (db, Existing(db.created[key]))
    else
      var id := |db.orders|;
      var r := Reserve(db.products, SortLines(lines));
      if r.Rejected? then (db, if r.missing then ProductNotFound else InsufficientStock)
      else (db.(products := r.products,
                orders := db.orders + [Order(Open, r.items)],
                created := if key == "" then db.created else db.created[key := id]),
            Created(id))
  }

  /** INSERT INTO refunds SELECT ... status = 'succeeded' ON CONFLICT DO NOTHING. */
  function AddRefund(payments: seq<Payment>, refunds: seq<Refund>, order: nat, now: nat): seq<Refund> {
    var paid := FindInStatus(payments, order, Succeeded);
    if paid.None? || FindRefund(refunds, paid.value).Some? then refunds
    else refunds + [Refund(paid.value, payments[paid.value].amount, Waiting, 0, now, None)]
  }

  /** OrderRepo.CancelOrder. */
  function CancelTx(db: Db, order: nat, now: nat): (Db, CancelResult) {
    if order >= |db.orders| then (db, NoSuchOrder)
    else
      var o := db.orders[order];
      if !CanTransition(o.status, Cancelled) then
        (db, if o.status == Cancelled then AlreadyCancelled else NotCancellable)
      else if o.status == Open && FindInStatus(db.payments, order, Pending).Some? then (db, PaymentInProgress)
      else
        (db.(orders := db.orders[order := o.(status := Cancelled)],
             refunds := if o.status == Paid then AddRefund(db.payments, db.refunds, order, now) else db.refunds,
             products := Restore(db.products, o.items)),
         CancelDone)
  }

  // ----- conservation of stock

  ghost predicate GoodItems(items: seq<Item>) {
    && (forall i | 0 <= i < |items| :: items[i].quantity > 0)
    && (forall i, j | 0 <= i < j < |items| :: items[i].product != items[j].product)
  }

  lemma {:induction false} HeldNonNegative(items: seq<Item>, product: int)
    requires forall i | 0 <= i < |items| :: items[i].quantity > 0
    ensures Held(items, product) >= 0
    ensures Held(items, product) > 0 <==> Mentions(items, product)
  {
    if items != [] {
      var init := items[..|items| - 1];
      HeldNonNegative(init, product);
      if Mentions(items, product) && Last(items).product != product {
        var i :| 0 <= i < |items| && items[i].product == product;
        assert init[i].product == product;
      }
      if Mentions(init, product) {
        var i :| 0 <= i < |init| && init[i].product == product;
        assert items[i].product == product;
      }
    }
  }

  lemma {:induction false} HeldAtLeast(items: seq<Item>, i: nat)
    requires i < |items|
    requires forall k | 0 <= k < |items| :: items[k].quantity > 0
    ensures Held(items, items[i].product) >= items[i].quantity
  {
    var init := items[..|items| - 1];
    HeldNonNegative(init, items[i].product);
    if i < |init| {
      HeldAtLeast(init, i);
      assert init[i] == items[i];
    }
  }

  /** Whatever matching row the UPDATE picks, it gives back all of the product exactly when no
      other row of the order names the same product. */
  lemma {:induction false} PickIsAllIffAlone(items: seq<Item>, i: nat)
    requires i < |items|
    requires forall k | 0 <= k < |items| :: items[k].quantity > 0
    ensures items[i].quantity == Held(items, items[i].product)
       <==> (forall k | 0 <= k < |items| :: items[k].product == items[i].product ==> k == i)
  {
    var init, p := items[..|items| - 1], items[i].product;
    HeldNonNegative(init, p);
    if i < |init| {
      PickIsAllIffAlone(init, i);
      assert init[i] == items[i];
      HeldAtLeast(init, i);
      if Last(items).product == p {
        assert items[|items| - 1].product == p;
      }
    } else if Mentions(init, p) {
      var k :| 0 <= k < |init| && init[k].product == p;
      assert items[k].product == p;
    } else {
      assert forall k | 0 <= k < |init| :: items[k] == init[k];
    }
  }

  lemma {:induction false} PickQuantityIsAMatch(items: seq<Item>, product: int) returns (i: nat)
    requires Mentions(items, product)
    ensures i < |items| && items[i].product == product && PickQuantity(items, product) == items[i].quantity
  {
    if Last(items).product == product {
      i := |items| - 1;
    } else {
      var init := items[..|items| - 1];
      var k :| 0 <= k < |items| && items[k].product == product;
      assert init[k].product == product;
      i := PickQuantityIsAMatch(init, product);
    }
  }

  /** Cancelling gives back what the order holds of every product if and only if the order has
      no product twice: the reason the request check rejects duplicates. */
  lemma CancelRestoresAllIffNoDuplicates(items: seq<Item>)
    requires forall k | 0 <= k < |items| :: items[k].quantity > 0
    ensures (forall p | Mentions(items, p) :: PickQuantity(items, p) == Held(items, p)) <==> GoodItems(items)
  {
    if GoodItems(items) {
      forall p | Mentions(items, p) ensures PickQuantity(items, p) == Held(items, p) {
        var i := PickQuantityIsAMatch(items, p);
        PickIsAllIffAlone(items, i);
      }
    } else {
      var i, j :| 0 <= i < j < |items| && items[i].product == items[j].product;
      var p := items[i].product;
      assert Mentions(items, p);
      var k := PickQuantityIsAMatch(items, p);
      PickIsAllIffAlone(items, k);
    }
  }

  /** Stock the open, paid, shipped and delivered orders hold of one product. */
  ghost function HeldByOrders(orders: seq<Order>, product: int): int {
    if orders == [] then 0
    else
      HeldByOrders(orders[..|orders| - 1], product) +
      (if Last(orders).status == Cancelled then 0 else Held(Last(orders).items, product))
  }

  lemma {:induction false} HeldByOrdersUpdate(orders: seq<Order>, k: nat, o: Order, product: int)
    requires k < |orders| && o.items == orders[k].items
    ensures HeldByOrders(orders[k := o], product)
         == HeldByOrders(orders, product)
          - (if orders[k].status == Cancelled then 0 else Held(o.items, product))
          + (if o.status == Cancelled then 0 else Held(o.items, product))
  {
    var init := orders[..|orders| - 1];
    var orders' := orders[k := o];
    if k == |orders| - 1 {
      assert orders'[..|orders'| - 1] == init;
    } else {
      assert orders'[..|orders'| - 1] == init[k := o];
      HeldByOrdersUpdate(init, k, o, product);
    }
  }

  lemma {:induction false} HeldByOrdersAppend(orders: seq<Order>, o: Order, product: int)
    ensures HeldByOrders(orders + [o], product)
         == HeldByOrders(orders, product) + (if o.status == Cancelled then 0 else Held(o.items, product))
  {
    assert (orders + [o])[..|orders|] == orders;
  }

  /** What a reservation does: the items are the lines, stock moves from the shelf to the order
      unit by unit and never below zero; it fails only if a product is missing or too scarce. */
  lemma {:induction false} ReserveKeepsLines(products: map<int, Product>, lines: seq<Line>)
    requires GoodLines(lines)
    ensures var r := Reserve(products, lines);
      r.Reserved? ==>
        && |r.items| == |lines| && GoodItems(r.items)
        && forall i | 0 <= i < |lines| ::
              r.items[i].product == lines[i].product && r.items[i].quantity == lines[i].quantity
  {
    if lines != [] {
      var init := lines[..|lines| - 1];
      ReserveKeepsLines(products, init);
      var r := Reserve(products, lines);
      if r.Reserved? {
        forall i | 0 <= i < |lines|
          ensures r.items[i].product == lines[i].product && r.items[i].quantity == lines[i].quantity
        {
          if i < |init| { assert init[i] == lines[i] && r.items[i] == Reserve(products, init).items[i]; }
        }
      }
    }
  }

  lemma {:induction false} ReserveMovesStock(products: map<int, Product>, lines: seq<Line>, p: int)
    requires GoodLines(lines)
    requires forall q | q in products :: products[q].stock >= 0
    ensures var r := Reserve(products, lines);
      r.Reserved? ==>
        && |r.items| == |lines| && GoodItems(r.items)
        && (forall i | 0 <= i < |lines| ::
              r.items[i].product == lines[i].product && r.items[i].quantity == lines[i].quantity)
        && r.products.Keys == products.Keys
        && (forall q | q in products :: 0 <= r.products[q].stock && r.products[q].price == products[q].price)
        && (p in products ==> r.products[p].stock + Held(r.items, p) == products[p].stock)
  {
    ReserveKeepsLines(products, lines);
    ReserveMoves(products, lines, p);
  }

  lemma {:induction false} ReserveMoves(products: map<int, Product>, lines: seq<Line>, p: int)
    requires forall q | q in products :: products[q].stock >= 0
    ensures var r := Reserve(products, lines);
      r.Reserved? ==>
        && r.products.Keys == products.Keys
        && (forall q | q in products :: 0 <= r.products[q].stock && r.products[q].price == products[q].price)
        && (p in products ==> r.products[p].stock + Held(r.items, p) == products[p].stock)
  {
    if lines != [] {
      ReserveMoves(products, lines[..|lines| - 1], p);
      var before, r := Reserve(products, lines[..|lines| - 1]), Reserve(products, lines);
      if r.Reserved? { assert r.items[..|r.items| - 1] == before.items; }
    }
  }

  ghost predicate StockInv(initial: map<int, Product>, db: Db) {
    && db.products.Keys == initial.Keys
    && (forall p | p in initial :: p in db.products && db.products[p].stock >= 0)
    && (forall p | p in initial ::
          p in db.products && db.products[p].stock + HeldByOrders(db.orders, p) == initial[p].stock)
    && (forall o | 0 <= o < |db.orders| :: GoodItems(db.orders[o].items))
  }

  lemma GoodLinesSorted(lines: seq<Line>)
    requires GoodLines(lines)
    ensures GoodLines(SortLines(lines))
  {
    SortLinesSorts(lines);
    var s := SortLines(lines);
    forall i | 0 <= i < |s| ensures s[i].quantity > 0 {
      assert s[i] in multiset(s);
      assert s[i] in lines;
    }
    if i, j :| 0 <= i < j < |s| && s[i].product == s[j].product {
      SameProductSameLine(lines, s[i], s[j], s);
      TwicePresent(s, i, j);
      var k :| 0 <= k < |lines| && lines[k] == s[i];
      OncePresent(lines, k);
    }
  }

  lemma SameProductSameLine(lines: seq<Line>, a: Line, b: Line, s: seq<Line>)
    requires GoodLines(lines) && multiset(s) == multiset(lines)
    requires a in s && b in s && a.product == b.product
    ensures a == b && a in lines
  {
    assert a in multiset(s) && b in multiset(s);
    assert a in lines && b in lines;
    var i :| 0 <= i < |lines| && lines[i] == a;
    var j :| 0 <= j < |lines| && lines[j] == b;
  }

  lemma TwicePresent(s: seq<Line>, i: nat, j: nat)
    requires i < j < |s| && s[i] == s[j]
    ensures multiset(s)[s[i]] >= 2
  {
    assert s == s[..j] + [s[j]] + s[j + 1..];
    assert s[i] in s[..j];
  }

  lemma OncePresent(lines: seq<Line>, k: nat)
    requires GoodLines(lines) && k < |lines|
    ensures multiset(lines)[lines[k]] == 1
  {
    assert lines == lines[..k] + [lines[k]] + lines[k + 1..];
    assert lines[k] !in lines[..k];
    assert lines[k] !in lines[k + 1..];
  }

  lemma CreateKeepsStock(initial: map<int, Product>, db: Db, lines: seq<Line>, key: string)
    requires StockInv(initial, db) && GoodLines(lines)
    ensures StockInv(initial, CreateTx(db, lines, key).0)
  {
    GoodLinesSorted(lines);
    var db' := CreateTx(db, lines, key).0;
    if db' != db {
      var r := Reserve(db.products, SortLines(lines));
      ReserveMovesStock(db.products, SortLines(lines), 0);
      forall p | p in initial ensures db'.products[p].stock + HeldByOrders(db'.orders, p) == initial[p].stock {
        ReserveMovesStock(db.products, SortLines(lines), p);
        HeldByOrdersAppend(db.orders, Order(Open, r.items), p);
      }
    }
  }

  lemma CancelKeepsStock(initial: map<int, Product>, db: Db, order: nat, now: nat)
    requires StockInv(initial, db)
    ensures StockInv(initial, CancelTx(db, order, now).0)
  {
    var (db', r) := CancelTx(db, order, now);
    if r == CancelDone {
      var o := db.orders[order];
      assert GoodItems(o.items);
      CancelRestoresAllIffNoDuplicates(o.items);
      forall p | p in initial
        ensures db'.products[p].stock + HeldByOrders(db'.orders, p) == initial[p].stock && db'.products[p].stock >= 0
      {
        HeldByOrdersUpdate(db.orders, order, o.(status := Cancelled), p);
        HeldNonNegative(o.items, p);
      }
    }
  }
}
