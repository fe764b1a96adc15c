/** When each transaction gives each of its answers, if and only if, and what it changes: said of the rows before
    and after, for any tables. */
module Answers {
  import opened Domain
  import opened Tables
  import opened Orders
  import opened Payments
  import opened Reconciliation
  import opened PayAnswers

  // ----- start

  ghost predicate KeyUsed(db: Db, key: string) {
    key != "" && exists p :: 0 <= p < |db.payments| && db.payments[p].key == key
  }

  ghost predicate CanStart(db: Db, order: nat) {
    && order < |db.orders| && db.orders[order].status == Open && Total(db.orders[order].items) > 0
  }

  lemma KeyIsFound(db: Db, key: string)
    ensures KeyUsed(db, key) <==> FindPayment(db.payments, key).Some?
  {
    var p := FindPayment(db.payments, key);
    if p.Some? { assert db.payments[p.value].key == key; }
  }

  /** `start`: started if the order is open, costs something and has no live payment, and the key is free; when both
      indexes clash, the one that reports decides. */
  lemma StartAnswers(db: Db, order: nat, key: string, keyFirst: bool, now: nat)
    ensures var (db', r) := StartTx(db, order, key, keyFirst, now);
      && (r.Started? <==> CanStart(db, order) && !HasLivePayment(db, order) && !KeyUsed(db, key))
      && (r == KeyTaken <==>
            CanStart(db, order) && KeyUsed(db, key) && (keyFirst || !HasLivePayment(db, order)))
      && (forall reason :: r == reason && !r.Started? && r != KeyTaken <==> Obstacle(db, order, key, keyFirst, reason))
      && (!r.Started? ==> db' == db)
      && (r.Started? ==>
            && r.payment == |db.payments|
            && db'.payments == db.payments +
                [Payment(order, Total(db.orders[order].items), Pending, key, None, now, 0, now, false)]
            && db'.events == db.events + [Event(|db.payments|, None, Pending)]
            && db' == db.(payments := db'.payments, events := db'.events))
  {
    LiveIsFound(db, order);
    KeyIsFound(db, key);
    forall reason { StartRefusesExactly(db, order, key, keyFirst, now, reason); }
  }

  // ----- Transition

  /** The lifecycle, said pair by pair. */
  predicate MayMove(from: PaymentStatus, to: PaymentStatus) {
    || (from == Pending && (to == Succeeded || to == Failed || to == Expired))
    || (from == Succeeded && to == PaymentStatus.Refunded)
  }

  lemma TransitionAnswers(db: Db, p: nat, to: PaymentStatus, charge: Option<nat>)
    ensures var (db', r) := TransitionTx(db, p, to, charge);
      var found := p < |db.payments|;
      && (r == PaymentNotFound <==> !found)
      && (forall from :: r == IllegalMove(from) <==> found && db.payments[p].status == from && !MayMove(from, to))
      && (r == OrderNoLongerOpen <==>
            && found && MayMove(db.payments[p].status, to) && to == Succeeded
            && !(db.payments[p].order < |db.orders| && db.orders[db.payments[p].order].status == Open))
      && (r != Moved ==> db' == db)
      && (r == Moved ==>
            && found && |db'.payments| == |db.payments| && |db'.orders| == |db.orders|
            && (forall q | 0 <= q < |db.payments| && q != p :: db'.payments[q] == db.payments[q])
            && db'.payments[p].status == to && db'.payments[p].key == db.payments[p].key
            && db'.payments[p].amount == db.payments[p].amount && db'.payments[p].order == db.payments[p].order
            && db'.payments[p].charge == (if charge.Some? then charge else db.payments[p].charge)
            && (forall o | 0 <= o < |db.orders| ::
                  db'.orders[o] == if to == Succeeded && o == db.payments[p].order then db.orders[o].(status := Paid)
                                   else db.orders[o])
            && db'.events == db.events + [Event(p, Some(db.payments[p].status), to)]
            && db'.refunds == db.refunds && db'.products == db.products && db'.created == db.created)
  {
  }

  // ----- CancelOrder

  ghost predicate PaymentPending(db: Db, order: nat) {
    exists p :: 0 <= p < |db.payments| && db.payments[p].order == order && db.payments[p].status == Pending
  }

  /** A cancelled order's refund: for a paid order the whole of its succeeded payment, unless it has a refund. */
  ghost predicate RefundMade(db: Db, order: nat, now: nat, refunds: seq<Refund>)
    requires order < |db.orders|
  {
    if db.orders[order].status == Paid
       && (exists p :: 0 <= p < |db.payments| && db.payments[p].order == order && db.payments[p].status == Succeeded)
    then exists p :: && 0 <= p < |db.payments| && db.payments[p].order == order && db.payments[p].status == Succeeded
                     && refunds == if (exists r :: 0 <= r < |db.refunds| && db.refunds[r].payment == p) then db.refunds
                                   else db.refunds + [Refund(p, db.payments[p].amount, Waiting, 0, now, None)]
    else refunds == db.refunds
  }

  lemma CancelAnswers(db: Db, order: nat, now: nat)
    ensures var (db', r) := CancelTx(db, order, now);
      && (r == NoSuchOrder <==> order >= |db.orders|)
      && (r == AlreadyCancelled <==> order < |db.orders| && db.orders[order].status == Cancelled)
      && (r == NotCancellable <==>
            order < |db.orders| && (db.orders[order].status == Shipped || db.orders[order].status == Delivered))
      && (r == PaymentInProgress <==>
            order < |db.orders| && db.orders[order].status == Open && PaymentPending(db, order))
      && (r != CancelDone ==> db' == db)
  {
    PendingIsThere(db, order);
  }

  lemma PendingIsThere(db: Db, order: nat)
    ensures PaymentPending(db, order) <==> FindInStatus(db.payments, order, Pending).Some?
  {
    var p := FindInStatus(db.payments, order, Pending);
    if p.Some? { assert db.payments[p.value].order == order; }
  }

  lemma CancelEffects(db: Db, order: nat, now: nat)
    requires CancelTx(db, order, now).1 == CancelDone
    ensures var db' := CancelTx(db, order, now).0;
      && |db'.orders| == |db.orders|
      && (forall o | 0 <= o < |db.orders| ::
            db'.orders[o] == if o == order then db.orders[o].(status := Cancelled) else db.orders[o])
      && RefundMade(db, order, now, db'.refunds)
      && db'.payments == db.payments && db'.events == db.events && db'.created == db.created
      && db'.products.Keys == db.products.Keys
      && (GoodItems(db.orders[order].items) ==>
            forall p | p in db.products ::
              && db'.products[p].stock == db.products[p].stock + Held(db.orders[order].items, p)
              && db'.products[p].price == db.products[p].price)
  {
    var db' := CancelTx(db, order, now).0;
    RefundIsMade(db, order, now);
    if GoodItems(db.orders[order].items) {
      CancelRestoresAllIffNoDuplicates(db.orders[order].items);
      forall p | p in db.products
        ensures db'.products[p].stock == db.products[p].stock + Held(db.orders[order].items, p)
      {
        HeldNonNegative(db.orders[order].items, p);
      }
    }
  }

  lemma RefundIsMade(db: Db, order: nat, now: nat)
    requires order < |db.orders|
    ensures RefundMade(db, order, now,
                       if db.orders[order].status == Paid then AddRefund(db.payments, db.refunds, order, now)
                       else db.refunds)
  {
    var paid := FindInStatus(db.payments, order, Succeeded);
    if paid.Some? {
      var r := FindRefund(db.refunds, paid.value);
      if r.Some? { assert db.refunds[r.value].payment == paid.value; }
      assert db.payments[paid.value].order == order;
    }
  }

  // ----- CreateOrder

  predicate Available(products: map<int, Product>, line: Line) {
    line.product in products && products[line.product].stock >= line.quantity
  }

  /** The line that cannot be served and comes before all others that cannot, in the order of product ids. */
  ghost predicate FirstUnavailable(products: map<int, Product>, lines: seq<Line>, i: nat) {
    && i < |lines| && !Available(products, lines[i])
    && forall j | 0 <= j < |lines| && lines[j].product < lines[i].product :: Available(products, lines[j])
  }

  /** With distinct products no line is affected by the ones before it. */
  lemma {:induction false} ReserveDecides(products: map<int, Product>, lines: seq<Line>)
    requires GoodLines(lines)
    ensures var r := Reserve(products, lines);
      && (r.Reserved? <==> forall i | 0 <= i < |lines| :: Available(products, lines[i]))
      && (r.Reserved? ==>
            && r.products.Keys == products.Keys
            && forall p | p in products && !Seen(lines, p) :: r.products[p] == products[p])
      && (r.Rejected? ==>
            exists n :: && 0 <= n < |lines| && !Available(products, lines[n])
                        && (forall k | 0 <= k < n :: Available(products, lines[k]))
                        && (r.missing <==> lines[n].product !in products))
  {
    if lines != [] {
      var n := |lines| - 1;
      var init := lines[..n];
      ReserveDecides(products, init);
      var before := Reserve(products, init);
      if before.Rejected? {
        var m :| && 0 <= m < |init| && !Available(products, init[m])
                 && (forall k | 0 <= k < m :: Available(products, init[k]))
                 && (before.missing <==> init[m].product !in products);
        assert lines[m] == init[m] && forall k | 0 <= k < m :: lines[k] == init[k];
      } else {
        assert forall k | 0 <= k < n :: lines[k] == init[k];
        NotSeenBefore(lines);
        assert lines[n].product in products ==> before.products[lines[n].product] == products[lines[n].product];
        assert forall p :: Seen(init, p) ==> Seen(lines, p);
      }
    }
  }

  lemma NotSeenBefore(lines: seq<Line>)
    requires GoodLines(lines) && lines != []
    ensures !Seen(lines[..|lines| - 1], Last(lines).product) && Seen(lines, Last(lines).product)
    ensures forall p :: Seen(lines[..|lines| - 1], p) ==> Seen(lines, p)
  {
    forall p | Seen(lines[..|lines| - 1], p) ensures Seen(lines, p) {
      var i :| 0 <= i < |lines| - 1 && lines[..|lines| - 1][i].product == p;
      assert lines[i].product == p;
    }
    assert lines[|lines| - 1].product == Last(lines).product;
  }

  lemma SameLine(a: seq<Line>, b: seq<Line>, i: nat) returns (k: nat)
    requires multiset(a) == multiset(b) && i < |a|
    ensures k < |b| && b[k] == a[i]
  {
    assert a[i] in multiset(b);
    k :| 0 <= k < |b| && b[k] == a[i];
  }

  /** The stop of the loop is the first unavailable line of the request. */
  lemma RejectedAtFirst(products: map<int, Product>, lines: seq<Line>) returns (i: nat)
    requires GoodLines(lines) && Reserve(products, SortLines(lines)).Rejected?
    ensures FirstUnavailable(products, lines, i)
    ensures Reserve(products, SortLines(lines)).missing <==> lines[i].product !in products
  {
    var sorted := SortLines(lines);
    SortLinesSorts(lines);
    GoodLinesSorted(lines);
    ReserveDecides(products, sorted);
    var n :| && 0 <= n < |sorted| && !Available(products, sorted[n])
             && (forall k | 0 <= k < n :: Available(products, sorted[k]))
             && (Reserve(products, sorted).missing <==> sorted[n].product !in products);
    i := SameLine(sorted, lines, n);
    forall j | 0 <= j < |lines| && lines[j].product < lines[i].product ensures Available(products, lines[j]) {
      var k := SameLine(lines, sorted, j);
      assert k < n;
    }
  }

  lemma ReservedIffAvailable(products: map<int, Product>, lines: seq<Line>)
    requires GoodLines(lines)
    ensures Reserve(products, SortLines(lines)).Reserved? <==>
      forall i | 0 <= i < |lines| :: Available(products, lines[i])
  {
    var sorted := SortLines(lines);
    SortLinesSorts(lines);
    GoodLinesSorted(lines);
    ReserveDecides(products, sorted);
    if forall i | 0 <= i < |lines| :: Available(products, lines[i]) {
      forall k | 0 <= k < |sorted| ensures Available(products, sorted[k]) {
        var i := SameLine(sorted, lines, k);
      }
    }
    if forall k | 0 <= k < |sorted| :: Available(products, sorted[k]) {
      forall i | 0 <= i < |lines| ensures Available(products, lines[i]) {
        var k := SameLine(lines, sorted, i);
      }
    }
  }

  lemma OneFirst(products: map<int, Product>, lines: seq<Line>, i: nat, j: nat)
    requires GoodLines(lines) && FirstUnavailable(products, lines, i) && FirstUnavailable(products, lines, j)
    ensures i == j
  {
  }

  ghost predicate FirstIsMissing(products: map<int, Product>, lines: seq<Line>) {
    exists i: nat :: FirstUnavailable(products, lines, i) && lines[i].product !in products
  }

  ghost predicate FirstIsScarce(products: map<int, Product>, lines: seq<Line>) {
    exists i: nat :: FirstUnavailable(products, lines, i) && lines[i].product in products
  }

  lemma RejectionSays(products: map<int, Product>, lines: seq<Line>)
    requires GoodLines(lines)
    ensures var r := Reserve(products, SortLines(lines));
      && (r == Rejected(true) <==> FirstIsMissing(products, lines))
      && (r == Rejected(false) <==> FirstIsScarce(products, lines))
  {
    ReservedIffAvailable(products, lines);
    if Reserve(products, SortLines(lines)).Rejected? {
      var i := RejectedAtFirst(products, lines);
      forall j: nat | FirstUnavailable(products, lines, j) ensures j == i { OneFirst(products, lines, i, j); }
    }
  }

  /** CreateOrder on a checked request: a used key answers with its order; otherwise the order is made exactly if every
      line is available, and the first unavailable product, in the order of ids, is the one that is named. */
  lemma CreateAnswers(db: Db, lines: seq<Line>, key: string)
    requires GoodLines(lines)
    ensures var (db', r) := CreateTx(db, lines, key);
      var used := key != "" && key in db.created;
      && (r.Existing? <==> used) && (r.Existing? ==> r.order == db.created[key])
      && (r.Created? <==> !used && forall i | 0 <= i < |lines| :: Available(db.products, lines[i]))
      && (r == ProductNotFound <==> !used && FirstIsMissing(db.products, lines))
      && (r == InsufficientStock <==> !used && FirstIsScarce(db.products, lines))
      && (!r.Created? ==> db' == db)
  {
    ReservedIffAvailable(db.products, lines);
    RejectionSays(db.products, lines);
  }

  /** One item for every line, at the price on the shelf. */
  ghost predicate ItemsAre(products: map<int, Product>, lines: seq<Line>, items: seq<Item>) {
    && |items| == |lines|
    && forall line | line in lines ::
         line.product in products && Item(line.product, line.quantity, products[line.product].price) in items
  }

  /** The shelf less what the items hold. */
  ghost predicate TakenFrom(products: map<int, Product>, items: seq<Item>, products': map<int, Product>) {
    && products'.Keys == products.Keys
    && forall p | p in products :: products'[p] == products[p].(stock := products[p].stock - Held(items, p))
  }

  lemma ReservedItems(products: map<int, Product>, lines: seq<Line>)
    requires GoodLines(lines) && Reserve(products, SortLines(lines)).Reserved?
    ensures ItemsAre(products, lines, Reserve(products, SortLines(lines)).items)
  {
    var sorted, r := SortLines(lines), Reserve(products, SortLines(lines));
    SortLinesSorts(lines);
    assert |lines| == |multiset(lines)| == |multiset(sorted)| == |sorted|;
    if lines != [] { ReservedPrice(products, sorted, 0); } else { assert sorted == []; }
    forall line | line in lines
      ensures line.product in products
      ensures Item(line.product, line.quantity, products[line.product].price) in r.items
    {
      assert line in multiset(sorted);
      var k :| 0 <= k < |sorted| && sorted[k] == line;
      ReservedPrice(products, sorted, k);
      assert r.items[k] in r.items;
    }
  }

  lemma {:induction false} ReservedShelf(products: map<int, Product>, lines: seq<Line>)
    ensures var r := Reserve(products, lines); r.Reserved? ==> TakenFrom(products, r.items, r.products)
  {
    var r := Reserve(products, lines);
    if lines != [] && r.Reserved? {
      var init, line := lines[..|lines| - 1], Last(lines);
      var before := Reserve(products, init);
      ReservedShelf(products, init);
      forall p | p in products
        ensures r.products[p] == products[p].(stock := products[p].stock - Held(r.items, p))
      {
        assert r.items[..|r.items| - 1] == before.items;
      }
    }
  }

  /** The new order: open, one item for every line at the price of this moment, and the shelf less just that. */
  lemma CreateEffects(db: Db, lines: seq<Line>, key: string)
    requires GoodLines(lines) && CreateTx(db, lines, key).1.Created?
    ensures var (db', r) := CreateTx(db, lines, key);
      && r.order == |db.orders| && |db'.orders| == |db.orders| + 1 && db'.orders[..|db.orders|] == db.orders
      && db'.orders[r.order].status == Open && ItemsAre(db.products, lines, db'.orders[r.order].items)
      && TakenFrom(db.products, db'.orders[r.order].items, db'.products)
      && db'.payments == db.payments && db'.refunds == db.refunds && db'.events == db.events
      && db'.created == (if key == "" then db.created else db.created[key := r.order])
  {
    ReservedItems(db.products, lines);
    ReservedShelf(db.products, SortLines(lines));
  }

  lemma {:induction false} ReservedPrice(products: map<int, Product>, lines: seq<Line>, k: nat)
    requires k < |lines| && Reserve(products, lines).Reserved?
    ensures var r := Reserve(products, lines);
      && |r.items| == |lines| && lines[k].product in products && r.products.Keys == products.Keys
      && (forall q | q in products :: r.products[q].price == products[q].price)
      && r.items[k] == Item(lines[k].product, lines[k].quantity, products[lines[k].product].price)
  {
    var n := |lines| - 1;
    var init := lines[..n];
    if n > 0 {
      ReservedPrice(products, init, if k < n then k else 0);
      assert k < n ==> init[k] == lines[k];
    } else {
      assert init == [];
    }
  }

  // ----- the decision table

  predicate Took(t: Theirs) {
    t.status == Charged || t.status == Returned
  }

  /** A refund that the provider has made and our row has not closed. */
  predicate OpenRefund(o: Ours) {
    o.refund.Some? && (o.refundStatus == Waiting || o.refundStatus == ManualReview)
  }

  predicate Agree(o: Ours, t: Theirs) {
    || (o.status == Succeeded && t.status == Charged)
    || (o.status == Failed && t.status == ProviderStatus.Declined)
    || (o.status == Expired && t.status == ProviderStatus.Declined)
    || (o.status == PaymentStatus.Refunded && t.status == Returned && o.refund.Some? && o.refundStatus == Done)
  }

  /** Every kind and every action of the table, for any two records, not only those a run can produce. */
  lemma ClassifyAnswers(ours: Option<Ours>, theirs: Option<Theirs>)
    ensures var f := Classify(ours, theirs);
      var both := ours.Some? && theirs.Some?;
      var amounts := both && Took(theirs.value) && ours.value.amount != theirs.value.amount;
      && (f.kind == MissingAtOurs <==> ours.None? && theirs.Some? && Took(theirs.value))
      && (f.kind == MissingAtProvider <==>
            && ours.Some? && theirs.None?
            && (ours.value.status == Succeeded || ours.value.status == PaymentStatus.Refunded))
      && (f.kind == AmountMismatch <==> amounts)
      && (f.kind == StatusMismatch <==> both && !amounts && !Agree(ours.value, theirs.value))
      && (f.action == FixPaymentSucceeded <==>
            both && !amounts && ours.value.status == Pending && theirs.value.status == Charged)
      && (f.action == FixPaymentFailed <==>
            both && ours.value.status == Pending && theirs.value.status == ProviderStatus.Declined)
      && (f.action == FixRefundSucceeded <==>
            && both && !amounts && theirs.value.status == Returned && OpenRefund(ours.value)
            && (ours.value.status == Succeeded || ours.value.status == PaymentStatus.Refunded))
      && (f.action == NoAction <==> f.kind == Matched)
  {
  }
}
