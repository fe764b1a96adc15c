/** The database tables and the provider's journal, as values.
    A row's id is its index: rows of these tables are never deleted. */
module Tables {
  import opened Domain

  datatype Product = Product(price: int, stock: int)

  datatype Item = Item(product: int, quantity: int, price: int)

  datatype Order = Order(status: OrderStatus, items: seq<Item>)

  /** `key == ""` is SQL NULL; `charge` is provider_payment_id ("ch_<id>" or NULL). */
  datatype Payment = Payment(order: nat, amount: int, status: PaymentStatus, key: string, charge: Option<nat>,
                             createdAt: nat, attempts: nat, nextAt: nat, manual: bool)

  datatype Refund = Refund(payment: nat, amount: int, status: RefundStatus, attempts: nat, nextAt: nat,
                           providerRefund: Option<nat>)

  /** A row of payment_events; `from == None` is the NULL of the first event. */
  datatype Event = Event(payment: nat, from: Option<PaymentStatus>, to: PaymentStatus)

  datatype Db = Db(products: map<int, Product>, orders: seq<Order>, created: map<string, nat>,
                   payments: seq<Payment>, refunds: seq<Refund>, events: seq<Event>)

  /** A row of fake_provider_charges; `charged == false` is status "declined". */
  datatype Charge = Charge(key: string, order: nat, amount: int, charged: bool, at: nat)

  /** A row of fake_provider_refunds; its idempotency key "refund-<id>" is the refund's id. */
  datatype Sent = Sent(refund: nat, charge: Option<nat>, amount: int)

  datatype Journal = Journal(charges: seq<Charge>, sent: seq<Sent>, down: bool)

  /** SUM(price * quantity) over the order's items, in cents. */
  function Total(items: seq<Item>): int {
    if items == [] then 0 else Total(items[..|items| - 1]) + Last(items).price * Last(items).quantity
  }

  function Last<T>(s: seq<T>): T
    requires s != []
  {
    s[|s| - 1]
  }

  /** SELECT ... WHERE idempotency_key = key: no row for NULL. */
  function FindPayment(payments: seq<Payment>, key: string): (r: Option<nat>)
    ensures r.Some? ==> r.value < |payments| && payments[r.value].key == key && key != ""
    ensures r.None? && key != "" ==> forall i | 0 <= i < |payments| :: payments[i].key != key
  {
    if payments == [] || key == "" then None
    else if Last(payments).key == key then Some(|payments| - 1)
    else FindPayment(payments[..|payments| - 1], key)
  }

  function FindCharge(charges: seq<Charge>, key: string): (r: Option<nat>)
    ensures r.Some? ==> r.value < |charges| && charges[r.value].key == key && key != ""
    ensures r.None? && key != "" ==> forall i | 0 <= i < |charges| :: charges[i].key != key
  {
    if charges == [] || key == "" then None
    else if Last(charges).key == key then Some(|charges| - 1)
    else FindCharge(charges[..|charges| - 1], key)
  }

  /** The refund row of a payment. */
  function FindRefund(refunds: seq<Refund>, payment: nat): (r: Option<nat>)
    ensures r.Some? ==> r.value < |refunds| && refunds[r.value].payment == payment
    ensures r.None? ==> forall i | 0 <= i < |refunds| :: refunds[i].payment != payment
  {
    if refunds == [] then None
    else if Last(refunds).payment == payment then Some(|refunds| - 1)
    else FindRefund(refunds[..|refunds| - 1], payment)
  }

  /** The provider's refund made under the key of refund row `refund`. */
  function FindSent(sent: seq<Sent>, refund: nat): (r: Option<nat>)
    ensures r.Some? ==> r.value < |sent| && sent[r.value].refund == refund
    ensures r.None? ==> forall i | 0 <= i < |sent| :: sent[i].refund != refund
  {
    if sent == [] then None
    else if Last(sent).refund == refund then Some(|sent| - 1)
    else FindSent(sent[..|sent| - 1], refund)
  }

  /** The payment of `order` in a given status, if any. */
  function FindInStatus(payments: seq<Payment>, order: nat, status: PaymentStatus): (r: Option<nat>)
    ensures r.Some? ==> r.value < |payments| && payments[r.value].order == order && payments[r.value].status == status
    ensures r.None? ==> forall i | 0 <= i < |payments| :: payments[i].order == order ==> payments[i].status != status
  {
    if payments == [] then None
    else if Last(payments).order == order && Last(payments).status == status then Some(|payments| - 1)
    else FindInStatus(payments[..|payments| - 1], order, status)
  }

  // ----- the unique indexes of the schema

  ghost predicate UniquePaymentKeys(payments: seq<Payment>) {
    forall i, j | 0 <= i < j < |payments| :: payments[i].key == payments[j].key ==> payments[i].key == ""
  }

  ghost predicate OneActive(payments: seq<Payment>) {
    forall i, j | 0 <= i < j < |payments| ::
      payments[i].order == payments[j].order ==> !(Active(payments[i].status) && Active(payments[j].status))
  }

  ghost predicate UniqueRefunds(refunds: seq<Refund>) {
    forall i, j | 0 <= i < j < |refunds| :: refunds[i].payment != refunds[j].payment
  }

  ghost predicate UniqueCharges(charges: seq<Charge>) {
    forall i, j | 0 <= i < j < |charges| :: charges[i].key == charges[j].key ==> charges[i].key == ""
  }

  ghost predicate UniqueSent(sent: seq<Sent>) {
    forall i, j | 0 <= i < j < |sent| :: sent[i].refund != sent[j].refund
  }

  ghost predicate Schema(db: Db) {
    UniquePaymentKeys(db.payments) && OneActive(db.payments) && UniqueRefunds(db.refunds)
  }

  ghost predicate JournalSchema(j: Journal) {
    UniqueCharges(j.charges) && UniqueSent(j.sent)
  }
}
