/** What an order costs, and that this is what is asked of the provider and given back. */
module Amounts {
  import opened Tables
  import opened Orders
  import opened Protocol
  import opened Invariant
  import opened Runs

  // ----- the sum

  lemma TotalOfOne(item: Item)
    ensures Total([item]) == item.price * item.quantity
  {
    assert [item][..0] == [];
    assert Total([item][..0]) == 0;
  }

  lemma {:induction false} TotalAppend(a: seq<Item>, b: seq<Item>)
    ensures Total(a + b) == Total(a) + Total(b)
  {
    if b == [] {
      assert a + b == a;
    } else {
      var init := b[..|b| - 1];
      TotalAppend(a, init);
      assert (a + b)[..|a + b| - 1] == a + init;
      assert Last(a + b) == Last(b);
    }
  }

  // ----- what a request costs

  /** Quantity times the price on the shelf, line by line as requested. */
  function Cost(products: map<int, Product>, lines: seq<Line>): int {
    if lines == [] then 0 else LineCost(products, lines[0]) + Cost(products, lines[1..])
  }

  function LineCost(products: map<int, Product>, line: Line): int {
    if line.product in products then line.quantity * products[line.product].price else 0
  }

  lemma {:induction false} CostAppend(products: map<int, Product>, a: seq<Line>, b: seq<Line>)
    ensures Cost(products, a + b) == Cost(products, a) + Cost(products, b)
  {
    if a == [] {
      assert a + b == b;
    } else {
      CostAppend(products, a[1..], b);
      assert (a + b)[1..] == a[1..] + b;
    }
  }

  lemma CostOfOne(products: map<int, Product>, line: Line)
    ensures Cost(products, [line]) == LineCost(products, line)
  {
    assert [line][1..] == [];
  }

  /** The order of the lines does not matter. */
  lemma {:induction false} InsertCosts(products: map<int, Product>, line: Line, sorted: seq<Line>)
    ensures Cost(products, Insert(line, sorted)) == Cost(products, sorted) + LineCost(products, line)
  {
    CostOfOne(products, line);
    if sorted == [] || Last(sorted).product <= line.product {
      CostAppend(products, sorted, [line]);
    } else {
      var init := sorted[..|sorted| - 1];
      InsertCosts(products, line, init);
      CostAppend(products, Insert(line, init), [Last(sorted)]);
      CostAppend(products, init, [Last(sorted)]);
      assert sorted == init + [Last(sorted)];
    }
  }

  lemma {:induction false} SortedCosts(products: map<int, Product>, lines: seq<Line>)
    ensures Cost(products, SortLines(lines)) == Cost(products, lines)
  {
    if lines != [] {
      var init := lines[..|lines| - 1];
      SortedCosts(products, init);
      InsertCosts(products, Last(lines), SortLines(init));
      CostAppend(products, init, [Last(lines)]);
      CostOfOne(products, Last(lines));
      assert lines == init + [Last(lines)];
    }
  }

  /** The items a reservation makes cost what the lines cost on the shelf. */
  lemma {:induction false} ReservedCosts(products: map<int, Product>, lines: seq<Line>)
    ensures var r := Reserve(products, lines);
      r.Reserved? ==>
        && Total(r.items) == Cost(products, lines) && r.products.Keys == products.Keys
        && forall p | p in products :: r.products[p].price == products[p].price
  {
    var r := Reserve(products, lines);
    if lines != [] && r.Reserved? {
      var init, line := lines[..|lines| - 1], Last(lines);
      var before := Reserve(products, init);
      ReservedCosts(products, init);
      var item := Item(line.product, line.quantity, products[line.product].price);
      assert r.items == before.items + [item];
      TotalAppend(before.items, [item]);
      TotalOfOne(item);
      CostAppend(products, init, [line]);
      CostOfOne(products, line);
      assert lines == init + [line];
      assert line.quantity * products[line.product].price == products[line.product].price * line.quantity;
    }
  }

  /** A created order has the requested lines at the prices of this moment. */
  lemma CreatedCosts(db: Db, lines: seq<Line>, key: string)
    ensures var (db', r) := CreateTx(db, lines, key);
      r.Created? ==> r.order < |db'.orders| && Total(db'.orders[r.order].items) == Cost(db.products, lines)
  {
    ReservedCosts(db.products, SortLines(lines));
    SortedCosts(db.products, lines);
  }

  // ----- from the request to the provider

  /** In every run, from the moment an order is created: each payment for it, each charge under such a payment's key and
      each refund of it is for the sum of the requested quantities times the prices at creation. */
  lemma EverythingIsForTheCost(c: Config, s: State, lines: seq<Line>, key: string, steps: seq<Step>)
    requires Reachable(c, s) && CheckRequest(lines).None?
    requires CreateTx(s.db, lines, key).1.Created?
    ensures var o, cost := CreateTx(s.db, lines, key).1.order, Cost(s.db.products, lines);
      var s' := Exec(c, Apply(c, s, Create(lines, key)), steps);
      && (forall p | 0 <= p < |s'.db.payments| && s'.db.payments[p].order == o :: s'.db.payments[p].amount == cost)
      && (forall p, t | 0 <= p < |s'.db.payments| && s'.db.payments[p].order == o && 0 <= t < |s'.journal.charges|
                        && s'.journal.charges[t].key == s'.db.payments[p].key :: s'.journal.charges[t].amount == cost)
      && (forall r | 0 <= r < |s'.db.refunds| && s'.db.refunds[r].payment < |s'.db.payments|
                     && s'.db.payments[s'.db.refunds[r].payment].order == o :: s'.db.refunds[r].amount == cost)
      && (forall e | 0 <= e < |s'.journal.sent| && s'.journal.sent[e].refund < |s'.db.refunds|
                     && s'.db.refunds[s'.journal.sent[e].refund].payment < |s'.db.payments|
                     && s'.db.payments[s'.db.refunds[s'.journal.sent[e].refund].payment].order == o ::
            s'.journal.sent[e].amount == cost)
  {
    var s1 := Apply(c, s, Create(lines, key));
    var s' := Exec(c, s1, steps);
    ReachableInv(c, s);
    StepKeeps(c, s, Create(lines, key));
    RunKeeps(c, s1, steps);
    CreatedCosts(s.db, lines, key);
    var o, cost := CreateTx(s.db, lines, key).1.order, Cost(s.db.products, lines);
    assert s'.db.orders[o].items == s1.db.orders[o].items;
    AmountsAre(s', o, cost);
  }

  lemma AmountsAre(s: State, o: nat, cost: int)
    requires Inv(s) && o < |s.db.orders| && Total(s.db.orders[o].items) == cost
    ensures forall p | 0 <= p < |s.db.payments| && s.db.payments[p].order == o :: s.db.payments[p].amount == cost
    ensures forall p, t | 0 <= p < |s.db.payments| && s.db.payments[p].order == o && 0 <= t < |s.journal.charges|
                          && s.journal.charges[t].key == s.db.payments[p].key :: s.journal.charges[t].amount == cost
    ensures forall r | 0 <= r < |s.db.refunds| && s.db.refunds[r].payment < |s.db.payments|
                       && s.db.payments[s.db.refunds[r].payment].order == o :: s.db.refunds[r].amount == cost
    ensures forall e | 0 <= e < |s.journal.sent| && s.journal.sent[e].refund < |s.db.refunds|
                       && s.db.refunds[s.journal.sent[e].refund].payment < |s.db.payments|
                       && s.db.payments[s.db.refunds[s.journal.sent[e].refund].payment].order == o ::
              s.journal.sent[e].amount == cost
  {
    forall p | 0 <= p < |s.db.payments| && s.db.payments[p].order == o ensures s.db.payments[p].amount == cost {
      assert PaymentRow(s.db, s.journal, p);
    }
    forall p, t | 0 <= p < |s.db.payments| && s.db.payments[p].order == o && 0 <= t < |s.journal.charges|
                  && s.journal.charges[t].key == s.db.payments[p].key
      ensures s.journal.charges[t].amount == cost
    {
      assert PaymentRow(s.db, s.journal, p);
      FoundPayment(s.db.payments, p);
      assert ChargeRow(s.db, s.journal.charges[t]);
    }
    forall r | 0 <= r < |s.db.refunds| && s.db.refunds[r].payment < |s.db.payments|
               && s.db.payments[s.db.refunds[r].payment].order == o
      ensures s.db.refunds[r].amount == cost
    {
      assert RefundRow(s.db, r);
    }
    forall e | 0 <= e < |s.journal.sent| && s.journal.sent[e].refund < |s.db.refunds|
               && s.db.refunds[s.journal.sent[e].refund].payment < |s.db.payments|
               && s.db.payments[s.db.refunds[s.journal.sent[e].refund].payment].order == o
      ensures s.journal.sent[e].amount == cost
    {
      assert SentRow(s.db, s.journal.sent[e]);
      assert RefundRow(s.db, s.journal.sent[e].refund);
    }
  }
}
