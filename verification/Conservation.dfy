/** Stock is conserved and a creation key makes one order, over every run. */
module Conservation {
  import opened Domain
  import opened Tables
  import opened Orders
  import opened Payments
  import opened Protocol
  import opened Effects

  ghost predicate KeysOk(db: Db) {
    && (forall k | k in db.created :: db.created[k] < |db.orders|)
    && (forall k, l | k in db.created && l in db.created && k != l :: db.created[k] != db.created[l])
  }

  ghost predicate KeepsKeys(db: Db, db': Db) {
    |db.orders| <= |db'.orders| && forall k | k in db.created :: k in db'.created && db'.created[k] == db.created[k]
  }

  lemma TransitionKeepsStock(initial: map<int, Product>, db: Db, p: nat, to: PaymentStatus, charge: Option<nat>)
    requires StockInv(initial, db)
    ensures StockInv(initial, TransitionTx(db, p, to, charge).0)
  {
    var (db', r) := TransitionTx(db, p, to, charge);
    if r == Moved && to == Succeeded {
      var k := db.payments[p].order;
      forall q | q in initial ensures db'.products[q].stock + HeldByOrders(db'.orders, q) == initial[q].stock {
        HeldByOrdersUpdate(db.orders, k, db'.orders[k], q);
      }
      assert forall o | 0 <= o < |db.orders| :: db'.orders[o].items == db.orders[o].items;
    }
  }

  lemma MoveKeepsStock(initial: map<int, Product>, db: Db, db': Db, e: Effect, now: nat)
    requires StockInv(initial, db) && KeysOk(db) && Performs(db, db', e, now)
    ensures StockInv(initial, db') && KeysOk(db') && KeepsKeys(db, db')
  {
    match e
    case Transitions(p, to, charge) => TransitionKeepsStock(initial, db, p, to, charge);
    case _ => SameShelf(initial, db, db');
  }

  lemma SameShelf(initial: map<int, Product>, db: Db, db': Db)
    requires StockInv(initial, db) && KeysOk(db)
    requires db'.products == db.products && db'.orders == db.orders && db'.created == db.created
    ensures StockInv(initial, db') && KeysOk(db') && KeepsKeys(db, db')
  {
  }

  lemma CreateKeepsKeys(db: Db, lines: seq<Line>, key: string)
    requires KeysOk(db)
    ensures var (db', r) := CreateTx(db, lines, key);
      && KeysOk(db') && KeepsKeys(db, db')
      && (r.Created? && key != "" ==> key in db'.created && db'.created[key] == r.order)
  {
  }

  lemma {:induction false} StepKeepsStock(initial: map<int, Product>, c: Config, s: State, step: Step)
    requires StockInv(initial, s.db) && KeysOk(s.db)
    ensures var db' := Apply(c, s, step).db; StockInv(initial, db') && KeysOk(db') && KeepsKeys(s.db, db')
  {
    match step
    case Create(lines, key) =>
      if CheckRequest(lines).None? {
        CheckLinesIsGoodLines(lines);
        CreateKeepsStock(initial, s.db, lines, key);
        CreateKeepsKeys(s.db, lines, key);
      }
    case Cancel(order) => CancelKeepsStock(initial, s.db, order, s.clock);
    case Move(fid, ch) =>
      if fid in s.flights {
        MovePerforms(c, s, fid, ch);
        MoveKeepsStock(initial, s.db, Apply(c, s, step).db, EffectOf(s.flights[fid], ch), s.clock);
      }
    case _ =>
      OtherStepIsQuiet(c, s, step);
      MoveKeepsStock(initial, s.db, Apply(c, s, step).db, Quiet, s.clock);
  }

  lemma {:induction false} RunKeepsStock(initial: map<int, Product>, c: Config, s: State, steps: seq<Step>)
    requires StockInv(initial, s.db) && KeysOk(s.db)
    ensures var db' := Exec(c, s, steps).db; StockInv(initial, db') && KeysOk(db') && KeepsKeys(s.db, db')
  {
    if steps != [] {
      RunKeepsStock(initial, c, s, steps[..|steps| - 1]);
      StepKeepsStock(initial, c, Exec(c, s, steps[..|steps| - 1]), Last(steps));
    }
  }

  /** In every run and for every product: what is on the shelf plus what the non-cancelled orders hold
      is what there was at the start, and the shelf never goes below zero. */
  lemma {:induction false} StockIsConserved(c: Config, products: map<int, Product>, steps: seq<Step>, p: int)
    requires forall q | q in products :: products[q].stock >= 0
    requires p in products
    ensures var db := Exec(c, Init(products), steps).db;
      && p in db.products && 0 <= db.products[p].stock
      && db.products[p].stock + HeldByOrders(db.orders, p) == products[p].stock
  {
    RunKeepsStock(products, c, Init(products), steps);
  }

  /** A creation key that made an order answers with that same order for good: no later request under
      it, whatever it asks for and whatever happened in between, makes an order or moves stock. */
  lemma {:induction false} CreationKeyMakesOneOrder(c: Config, products: map<int, Product>, before: seq<Step>,
                                                    lines: seq<Line>, key: string,
                                 between: seq<Step>, again: seq<Line>)
    requires forall q | q in products :: products[q].stock >= 0
    requires CheckRequest(lines).None? && key != ""
    requires var r := CreateTx(Exec(c, Init(products), before).db, lines, key).1; r.Created? || r.Existing?
    ensures var s := Exec(c, Init(products), before);
      var order := CreateTx(s.db, lines, key).1.order;
      var s' := Exec(c, Apply(c, s, Create(lines, key)), between);
      && CreateTx(s'.db, again, key) == (s'.db, Existing(order))
      && order < |s'.db.orders|
      && forall k | k in s'.db.created && s'.db.created[k] == order :: k == key
  {
    RunKeepsStock(products, c, Init(products), before);
    KeyStaysUsed(c, products, Exec(c, Init(products), before), lines, key, between, again);
  }

  lemma {:induction false} KeyStaysUsed(c: Config, initial: map<int, Product>, s: State, lines: seq<Line>, key: string,
                     between: seq<Step>, again: seq<Line>)
    requires StockInv(initial, s.db) && KeysOk(s.db) && CheckRequest(lines).None? && key != ""
    requires var r := CreateTx(s.db, lines, key).1; r.Created? || r.Existing?
    ensures var order := CreateTx(s.db, lines, key).1.order;
      var db' := Exec(c, Apply(c, s, Create(lines, key)), between).db;
      && CreateTx(db', again, key) == (db', Existing(order))
      && order < |db'.orders|
      && forall k | k in db'.created && db'.created[k] == order :: k == key
  {
    var s1 := Apply(c, s, Create(lines, key));
    StepKeepsStock(initial, c, s, Create(lines, key));
    CreateKeepsKeys(s.db, lines, key);
    var order := CreateTx(s.db, lines, key).1.order;
    assert key in s1.db.created && s1.db.created[key] == order;
    RunKeepsStock(initial, c, s1, between);
    var db' := Exec(c, s1, between).db;
    assert key in db'.created && db'.created[key] == order;
  }
}
