/** The database and the provider as objects: the repositories' methods change table by table, and
    each is proved to be the transaction the protocol is stated with. */
module Store {
  import opened Domain
  import opened Tables
  import opened Orders
  import opened Payments
  import opened Reconciliation

  /** order_service.go: the validation loop. */
  method CheckItems(lines: seq<Line>) returns (error: Option<RequestError>, items: seq<Line>)
    ensures error == CheckRequest(lines)
    ensures error.None? ==> items == lines && GoodLines(lines)
  {
    if lines == [] { return Some(Empty), []; }
    var seen: set<int> := {};
    items := [];
    var i := 0;
    while i < |lines|
      invariant 0 <= i <= |lines| && items == lines[..i]
      invariant CheckLines(lines[..i]).None?
      invariant forall p :: p in seen <==> Seen(lines[..i], p)
    {
      var line := lines[i];
      assert lines[..i + 1][..i] == lines[..i];
      if line.quantity <= 0 {
        CheckLinesStops(lines, i + 1);
        return Some(BadQuantity), items;
      }
      if line.product in seen {
        CheckLinesStops(lines, i + 1);
        return Some(DuplicateProduct), items;
      }
      seen := seen + {line.product};
      items := items + [line];
      forall p ensures p in seen <==> Seen(lines[..i + 1], p) {
        if Seen(lines[..i], p) {
          var k :| 0 <= k < i && lines[..i][k].product == p;
          assert lines[..i + 1][k].product == p;
        }
        if Seen(lines[..i + 1], p) && p != line.product {
          var k :| 0 <= k < i + 1 && lines[..i + 1][k].product == p;
          assert lines[..i][k].product == p;
        }
        assert lines[..i + 1][i] == line;
      }
      i := i + 1;
    }
    assert lines[..i] == lines;
    CheckLinesIsGoodLines(lines);
    error := None;
  }

  /** The first complaint is the answer, whatever follows. */
  lemma {:induction false} CheckLinesStops(lines: seq<Line>, n: nat)
    requires n <= |lines| && CheckLines(lines[..n]).Some?
    ensures CheckLines(lines) == CheckLines(lines[..n])
    decreases |lines|
  {
    if n < |lines| {
      var init := lines[..|lines| - 1];
      assert init[..n] == lines[..n];
      CheckLinesStops(init, n);
    } else {
      assert lines[..n] == lines;
    }
  }

  /** sort.Slice by product, in place. */
  method SortByProduct(a: array<Line>)
    modifies a
    ensures a[..] == SortLines(old(a[..]))
  {
    ghost var was := a[..];
    var i := 0;
    while i < a.Length
      invariant 0 <= i <= a.Length
      invariant a[..i] == SortLines(was[..i]) && a[i..] == was[i..]
    {
      assert a[i] == a[i..][0] == was[i];
      assert was[..i + 1][..i] == was[..i] && Last(was[..i + 1]) == was[i];
      InsertAt(a, i);
      i := i + 1;
      assert a[i..] == was[i..] by { assert a[i..] == was[i - 1..][1..]; }
    }
    assert was[..i] == was && a[..i] == a[..];
  }

  /** Moves a[i] down to its place among the i ordered elements before it. */
  method InsertAt(a: array<Line>, i: nat)
    requires i < a.Length
    modifies a
    ensures a[..i + 1] == Insert(old(a[i]), old(a[..i]))
    ensures a[i + 1..] == old(a[i..])[1..]
  {
    var x, j := a[i], i;
    ghost var was := a[..];
    while j > 0 && a[j - 1].product > x.product
      invariant 0 <= j <= i && Shifted(was, a[..], i, j)
      invariant Insert(x, was[..i]) == Insert(x, was[..j]) + was[j..i]
    {
      InsertSkips(x, was, i, j);
      a[j] := a[j - 1];
      j := j - 1;
    }
    a[j] := x;
    InsertDone(x, was, a[..], i, j);
  }

  /** The elements from j on moved up by one; the place j itself is free. */
  ghost predicate Shifted(was: seq<Line>, now: seq<Line>, i: nat, j: nat)
    requires j <= i
  {
    && |now| == |was| && (forall k | 0 <= k < j && k < |was| :: now[k] == was[k])
    && (forall k | j < k <= i && k < |was| :: now[k] == was[k - 1]) && forall k | i < k < |was| :: now[k] == was[k]
  }

  lemma InsertDone(x: Line, was: seq<Line>, now: seq<Line>, i: nat, j: nat)
    requires j <= i < |was| && (j == 0 || was[j - 1].product <= x.product)
    requires Shifted(was, now, i, j) && now[j] == x
    requires Insert(x, was[..i]) == Insert(x, was[..j]) + was[j..i]
    ensures now[..i + 1] == Insert(x, was[..i]) && now[i + 1..] == was[i..][1..]
  {
    assert j > 0 ==> Last(was[..j]) == was[j - 1];
    assert Insert(x, was[..j]) == was[..j] + [x];
    assert now[..i + 1] == was[..j] + [x] + was[j..i];
  }

  lemma InsertSkips(x: Line, s: seq<Line>, i: nat, j: nat)
    requires 0 < j <= i <= |s| && s[j - 1].product > x.product
    requires Insert(x, s[..i]) == Insert(x, s[..j]) + s[j..i]
    ensures Insert(x, s[..i]) == Insert(x, s[..j - 1]) + s[j - 1..i]
  {
    assert s[..j][..j - 1] == s[..j - 1] && Last(s[..j]) == s[j - 1];
    assert [s[j - 1]] + s[j..i] == s[j - 1..i];
  }

  class Database {
    var products: map<int, Product>
    var orders: seq<Order>
    var created: map<string, nat>
    var payments: seq<Payment>
    var refunds: seq<Refund>
    var events: seq<Event>

    constructor (products: map<int, Product>)
      ensures View() == Db(products, [], map[], [], [], [])
    {
      this.products := products;
      orders, created, payments, refunds, events := [], map[], [], [], [];
    }

    function View(): Db
      reads this
    {
      Db(products, orders, created, payments, refunds, events)
    }

    /** The loop over the items: price read, stock deducted, item row added. */
    method DeductAll(items: array<Line>) returns (rows: seq<Item>, failure: Option<CreateResult>)
      modifies this`products
      ensures match Reserve(old(products), items[..])
        case Reserved(left, taken) => failure == None && products == left && rows == taken
        case Rejected(missing) => failure == Some(if missing then ProductNotFound else InsufficientStock)
    {
      ghost var lines := items[..];
      rows := [];
      var i := 0;
      while i < items.Length
        invariant 0 <= i <= items.Length && items[..] == lines
        invariant Reserve(old(products), lines[..i]) == Reserved(products, rows)
      {
        var item := items[i];
        assert lines[..i + 1][..i] == lines[..i] && Last(lines[..i + 1]) == item;
        if item.product !in products {
          ReserveStops(old(products), lines, i + 1);
          return rows, Some(ProductNotFound);
        }
        var p := products[item.product];
        if p.stock < item.quantity {
          ReserveStops(old(products), lines, i + 1);
          return rows, Some(InsufficientStock);
        }
        products := products[item.product := p.(stock := p.stock - item.quantity)];
        rows := rows + [Item(item.product, item.quantity, p.price)];
        i := i + 1;
      }
      assert lines[..i] == lines;
      failure := None;
    }

    /** OrderRepo.CreateOrder under the transaction manager. */
    method CreateOrder(items: array<Line>, key: string) returns (r: CreateResult)
      modifies this, items
      ensures View() == CreateTx(old(View()), old(items[..]), key).0
      ensures r == CreateTx(old(View()), old(items[..]), key).1
    {
      if key != "" && key in created {
        return Existing(created[key]);
      }
      var saved, orderID := products, |orders|;
      SortByProduct(items);
      var rows, failure := DeductAll(items);
      if failure.Some? {
        products := saved;
        return failure.value;
      }
      orders := orders + [Order(Open, rows)];
      if key != "" {
        created := created[key := orderID];
      }
      r := Created(orderID);
    }

    /** OrderRepo.CancelOrder. */
    method CancelOrder(order: nat, now: nat) returns (r: CancelResult)
      modifies this
      ensures View() == CancelTx(old(View()), order, now).0 && r == CancelTx(old(View()), order, now).1
    {
      if order >= |orders| { return NoSuchOrder; }
      var o := orders[order];
      if !CanTransition(o.status, Cancelled) {
        return if o.status == Cancelled then AlreadyCancelled else NotCancellable;
      }
      if o.status == Open {
        if FindInStatus(payments, order, Pending).Some? { return PaymentInProgress; }
      }
      orders := orders[order := o.(status := Cancelled)];
      if o.status == Paid {
        var paid := FindInStatus(payments, order, Succeeded);
        if paid.Some? && FindRefund(refunds, paid.value).None? {
          refunds := refunds + [Refund(paid.value, payments[paid.value].amount, Waiting, 0, now, None)];
        }
      }
      products := Restore(products, o.items);
      r := CancelDone;
    }

    method AddPaymentEvent(payment: nat, from: Option<PaymentStatus>, to: PaymentStatus)
      modifies this`events
      ensures events == old(events) + [Event(payment, from, to)]
    {
      events := events + [Event(payment, from, to)];
    }

    /** PaymentRepo.start; `keyFirst` is which of two violated indexes reports. */
    method Start(order: nat, key: string, keyFirst: bool, now: nat) returns (r: StartResult)
      modifies this
      ensures View() == StartTx(old(View()), order, key, keyFirst, now).0
      ensures r == StartTx(old(View()), order, key, keyFirst, now).1
    {
      if order >= |orders| { return OrderNotFound; }
      if orders[order].status != Open { return OrderNotOpen(orders[order].status); }
      var amount := Total(orders[order].items);
      if amount <= 0 { return AmountNotPositive; }
      var active := FindInStatus(payments, order, Pending).Some? || FindInStatus(payments, order, Succeeded).Some?;
      var taken := FindPayment(payments, key).Some?;
      if taken && (keyFirst || !active) { return KeyTaken; }
      if active { return AlreadyActive; }
      var id := |payments|;
      payments := payments + [Payment(order, amount, Pending, key, None, now, 0, now, false)];
      AddPaymentEvent(id, None, Pending);
      r := Started(id);
    }

    /** PaymentRepo.Transition: every table is put back if the order is no longer open. */
    method Transition(payment: nat, to: PaymentStatus, charge: Option<nat>) returns (r: TransitionResult)
      modifies this
      ensures View() == TransitionTx(old(View()), payment, to, charge).0
      ensures r == TransitionTx(old(View()), payment, to, charge).1
    {
      if payment >= |payments| { return PaymentNotFound; }
      var p := payments[payment];
      if !CanTransitionPayment(p.status, to) { return IllegalMove(p.status); }
      var savedPayments, savedEvents := payments, events;
      payments := payments[payment := p.(status := to, charge := if charge.Some? then charge else p.charge)];
      AddPaymentEvent(payment, Some(p.status), to);
      if to == Succeeded {
        if p.order < |orders| && orders[p.order].status == Open {
          orders := orders[p.order := orders[p.order].(status := Paid)];
        } else {
          payments, events := savedPayments, savedEvents;
          return OrderNoLongerOpen;
        }
      }
      r := Moved;
    }

    /** RefundWorker.markSucceeded: the refund row is put back if the payment cannot be refunded. */
    method MarkRefundSucceeded(refund: nat, payment: nat, sent: nat) returns (ok: bool)
      modifies this
      ensures View() == RefundSucceededTx(old(View()), refund, payment, sent).0
      ensures ok == RefundSucceededTx(old(View()), refund, payment, sent).1
    {
      var saved := refunds;
      if refund < |refunds| && refunds[refund].status == Waiting {
        refunds := refunds[refund := refunds[refund].(status := Done, providerRefund := Some(sent))];
      }
      if payment >= |payments| || !CanTransitionPayment(payments[payment].status, Refunded) {
        refunds := saved;
        return false;
      }
      var from := payments[payment].status;
      payments := payments[payment := payments[payment].(status := Refunded)];
      AddPaymentEvent(payment, Some(from), Refunded);
      ok := true;
    }

    /** RefundWorker.markFailed. */
    method MarkRefundFailed(refund: nat, attempts: nat, maxAttempts: nat, retryAt: nat)
      modifies this`refunds
      ensures View() == RefundFailedTx(old(View()), refund, attempts, maxAttempts, retryAt)
    {
      if refund < |refunds| && refunds[refund].status == Waiting {
        if attempts >= maxAttempts {
          refunds := refunds[refund := refunds[refund].(status := ManualReview)];
        } else {
          refunds := refunds[refund := refunds[refund].(nextAt := retryAt)];
        }
      }
    }

    /** The leasing UPDATEs of the two workers, one row at a time. */
    method LeaseRefundRow(refund: nat, until: nat)
      requires refund < |refunds|
      modifies this`refunds
      ensures View() == LeaseRefund(old(View()), refund, until)
    {
      var r := refunds[refund];
      refunds := refunds[refund := r.(attempts := r.attempts + 1, nextAt := until)];
    }

    method LeasePaymentRow(payment: nat, until: nat)
      requires payment < |payments|
      modifies this`payments
      ensures View() == LeasePayment(old(View()), payment, until)
    {
      var p := payments[payment];
      payments := payments[payment := p.(attempts := p.attempts + 1, nextAt := until)];
    }

    /** ReconcileWorker.schedule and ReconcileWorker.manual. */
    method Schedule(payment: nat, nextAt: nat)
      modifies this`payments
      ensures View() == ScheduleTx(old(View()), payment, nextAt)
    {
      if payment < |payments| && payments[payment].status == Pending {
        payments := payments[payment := payments[payment].(nextAt := nextAt)];
      }
    }

    method MarkManual(payment: nat)
      modifies this`payments
      ensures View() == ManualTx(old(View()), payment)
    {
      if payment < |payments| && payments[payment].status == Pending {
        payments := payments[payment := payments[payment].(manual := true)];
      }
    }

    /** The job's last statement of a refund fix. */
    method CloseRefund(refund: nat)
      modifies this`refunds
      ensures View() == CloseRefundTx(old(View()), refund)
    {
      if refund < |refunds| && refunds[refund].status in {Waiting, ManualReview} {
        refunds := refunds[refund := refunds[refund].(status := Done)];
      }
    }
  }

  class FakeProvider {
    var charges: seq<Charge>
    var sent: seq<Sent>
    var down: bool

    constructor ()
      ensures View() == Journal([], [], false)
    {
      charges, sent, down := [], [], false;
    }

    function View(): Journal
      reads this
    {
      Journal(charges, sent, down)
    }

    method Charge(key: string, order: nat, amount: int, approve: bool, now: nat) returns (r: ChargeReply)
      modifies this`charges
      ensures View() == ChargeCall(old(View()), key, order, amount, approve, now).0
      ensures r == ChargeCall(old(View()), key, order, amount, approve, now).1
    {
      if down { return ChargeUnavailable; }
      var charged, id := approve, |charges|;
      var first := FindCharge(charges, key);
      if first.Some? {
        id, charged := first.value, charges[first.value].charged;
      } else {
        charges := charges + [Tables.Charge(key, order, amount, approve, now)];
      }
      r := if charged then ChargeOk(id) else ChargeDeclined;
    }

    method Refund(refund: nat, charge: Option<nat>, amount: int) returns (r: RefundReply)
      modifies this`sent
      ensures View() == RefundCall(old(View()), refund, charge, amount).0
      ensures r == RefundCall(old(View()), refund, charge, amount).1
    {
      if down { return RefundUnavailable; }
      var first := FindSent(sent, refund);
      var id := |sent|;
      if first.Some? {
        id := first.value;
      } else {
        sent := sent + [Sent(refund, charge, amount)];
      }
      r := RefundOk(id);
    }

    method ChargeStatus(key: string) returns (r: StatusReply)
      ensures r == StatusCall(View(), key)
    {
      if down { return StatusUnavailable; }
      var c := FindCharge(charges, key);
      if c.None? { return NotFound; }
      if !charges[c.value].charged { return WasDeclined; }
      r := WasCharged(c.value);
    }

    /** The charges made in [from, to), in order; None when the provider is down. */
    method ListCharges(from: int, to: int) returns (r: Option<seq<Entry>>)
      ensures r == if down then None else Some(Listed(View(), from, to, |charges|))
    {
      if down { return None; }
      var out: seq<Entry> := [];
      var i := 0;
      while i < |charges|
        invariant 0 <= i <= |charges| && out == Listed(View(), from, to, i)
      {
        if from <= charges[i].at < to {
          var refunded := exists k | 0 <= k < |sent| :: sent[k].charge == Some(i);
          var status := if charges[i].charged then Charged else Declined;
          if refunded && status == Charged { status := Returned; }
          out := out + [Entry(Theirs(charges[i].key, i, charges[i].amount, status), charges[i].at)];
        }
        i := i + 1;
      }
      r := Some(out);
    }
  }

  /** An element of the provider's list, with its date. */
  datatype Entry = Entry(theirs: Theirs, at: nat)

  /** The part of the first n journal rows that falls in [from, to). */
  function Listed(j: Journal, from: int, to: int, n: nat): seq<Entry>
    requires n <= |j.charges|
  {
    if n == 0 then []
    else
      Listed(j, from, to, n - 1) +
      (if from <= j.charges[n - 1].at < to then [Entry(TheirsOf(j, n - 1), j.charges[n - 1].at)] else [])
  }
}
