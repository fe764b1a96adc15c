/** What an answer of Pay means: told by what the statements of the call met, each in the state it ran in, and
    not by the code that gives the answer. */
module PayAnswers {
  import opened Domain
  import opened Tables
  import opened Payments
  import opened Protocol
  import opened Deployment

  /** Why a charge is not recorded: Transition refused, or its statements failed or were not acknowledged. */
  datatype RecordError = RecordRefused(error: TransitionResult) | DatabaseError

  datatype PayResult =
    | BadRequest
    | StoreError
    | PaidWith(charge: Option<nat>)
    | PayDeclined
    | NotStarted(reason: StartResult)
    | AlreadyFinished(status: PaymentStatus)
    | OutcomeUnknown
    | NotRecorded(why: RecordError)

  /** What a statement of Pay can meet. */
  datatype Meeting =
    | Found(status: PaymentStatus)
    | Refused(reason: StartResult)
    | Unanswered
    | Declined
    | Approved
    | Recorded
    | GaveUp

  ghost predicate HasLivePayment(db: Db, order: nat) {
    exists p :: && 0 <= p < |db.payments| && db.payments[p].order == order
                && (db.payments[p].status == Pending || db.payments[p].status == Succeeded)
  }

  /** Why no payment can be started for the order under a key; `keyFirst` is the index that reports when both clash. */
  ghost predicate Obstacle(db: Db, order: nat, key: string, keyFirst: bool, reason: StartResult) {
    var open := order < |db.orders| && db.orders[order].status == Open;
    match reason
    case OrderNotFound => order >= |db.orders|
    case OrderNotOpen(status) => order < |db.orders| && db.orders[order].status == status && status != Open
    case AmountNotPositive => open && Total(db.orders[order].items) <= 0
    case AlreadyActive =>
      && open && Total(db.orders[order].items) > 0 && HasLivePayment(db, order)
      && !(keyFirst && FindPayment(db.payments, key).Some?)
    case _ => false
  }

  /** The request reaches the provider and its answer the caller. */
  predicate IsHeard(a: Act) {
    a.step.Move? && !a.step.choice.lost && !a.at.journal.down
  }

  /** The first request under a key decides, as the provider then chooses. */
  predicate Approves(j: Journal, key: string, choice: Choice) {
    match FindCharge(j.charges, key)
    case Some(t) => j.charges[t].charged
    case None => choice.approve
  }

  /** Before this very step the payment was not succeeded, and after it it is. */
  ghost predicate MovesToSucceeded(c: Config, a: Act, payment: nat) {
    var after := Apply(c, a.at, a.step).db.payments;
    && payment < |a.at.db.payments| && payment < |after|
    && a.at.db.payments[payment].status != Succeeded && after[payment].status == Succeeded
  }

  ghost predicate Meets(c: Config, a: Act, fid: nat, order: nat, key: string, m: Meeting) {
    && fid in a.at.flights
    && var f := a.at.flights[fid];
       match m
       case Found(status) =>
         && (f.Looking? || f.LookingAgain?) && a.step.Move?
         && var p := FindPayment(a.at.db.payments, key); p.Some? && a.at.db.payments[p.value].status == status
       case Refused(reason) =>
         && a.step.Move?
         && if reason == KeyTaken then f.LookingAgain? && FindPayment(a.at.db.payments, key).None?
            else f.Starting? && Obstacle(a.at.db, order, key, a.step.choice.keyFirst, reason)
       case Unanswered => f.Charging? && a.step.Move? && !IsHeard(a)
       case Declined => f.Charging? && IsHeard(a) && !Approves(a.at.journal, key, a.step.choice)
       case Approved => f.Charging? && IsHeard(a) && Approves(a.at.journal, key, a.step.choice)
       case Recorded => f.Recording? && a.step.Move? && MovesToSucceeded(c, a, f.payment)
       case GaveUp => (a.step.StatementFails? || a.step.Crash?) && !f.Recording?
  }

  /** Some statement of the call met this. */
  ghost predicate Met(c: Config, acts: seq<Act>, fid: nat, order: nat, key: string, m: Meeting) {
    exists i :: 0 <= i < |acts| && Meets(c, acts[i], fid, order, key, m)
  }

  /** When each answer is given, if and only if. */
  ghost predicate AnswerFits(c: Config, acts: seq<Act>, fid: nat, order: nat, key: string, record: Write,
                             r: PayResult)
  {
    && (r.PaidWith? <==>
          || Met(c, acts, fid, order, key, Found(Succeeded))
          || (Met(c, acts, fid, order, key, Recorded) && record == Works))
    && (r == PayDeclined <==> Met(c, acts, fid, order, key, Found(Failed)) || Met(c, acts, fid, order, key, Declined))
    && (r == AlreadyFinished(Expired) <==> Met(c, acts, fid, order, key, Found(Expired)))
    && (r == AlreadyFinished(PaymentStatus.Refunded) <==> Met(c, acts, fid, order, key, Found(PaymentStatus.Refunded)))
    && (r == OutcomeUnknown <==> Met(c, acts, fid, order, key, Unanswered))
    && (forall reason :: r == NotStarted(reason) <==> Met(c, acts, fid, order, key, Refused(reason)))
    && (r == NotRecorded(DatabaseError) <==>
          && Met(c, acts, fid, order, key, Approved)
          && (record == Fails || (record == CommitsUnheard && Met(c, acts, fid, order, key, Recorded))))
    && (r.NotRecorded? && r.why.RecordRefused? <==>
          && Met(c, acts, fid, order, key, Approved)
          && record != Fails && !Met(c, acts, fid, order, key, Recorded))
    && (r == StoreError <==> Met(c, acts, fid, order, key, GaveUp))
    && r != BadRequest
  }

  /** Nothing met so far ends the call. */
  ghost predicate GoesOn(c: Config, acts: seq<Act>, fid: nat, order: nat, key: string) {
    forall m | m != Found(Pending) :: !Met(c, acts, fid, order, key, m)
  }

  /** The call is still going or has its answer. */
  ghost predicate Justified(c: Config, acts: seq<Act>, fid: nat, order: nat, key: string, record: Write,
                            r: Option<PayResult>)
  {
    match r
    case None => GoesOn(c, acts, fid, order, key)
    case Some(answer) => AnswerFits(c, acts, fid, order, key, record, answer)
  }

  lemma MetInEither(c: Config, x: seq<Act>, y: seq<Act>, fid: nat, order: nat, key: string, m: Meeting)
    ensures Met(c, x + y, fid, order, key, m) <==> Met(c, x, fid, order, key, m) || Met(c, y, fid, order, key, m)
  {
    if i :| 0 <= i < |x| && Meets(c, x[i], fid, order, key, m) {
      assert (x + y)[i] == x[i];
    }
    if i :| 0 <= i < |y| && Meets(c, y[i], fid, order, key, m) {
      assert (x + y)[|x| + i] == y[i];
    }
  }

  lemma MetOnce(c: Config, a: Act, fid: nat, order: nat, key: string, m: Meeting)
    ensures Met(c, [a], fid, order, key, m) <==> Meets(c, a, fid, order, key, m)
  {
    assert Meets(c, a, fid, order, key, m) ==> Meets(c, [a][0], fid, order, key, m);
  }

  lemma NothingMet(c: Config, fid: nat, order: nat, key: string)
    ensures GoesOn(c, [], fid, order, key)
  {
  }

  /** What comes after statements that end nothing decides. */
  lemma JustifiedLater(c: Config, x: seq<Act>, y: seq<Act>, fid: nat, order: nat, key: string, record: Write,
                       r: Option<PayResult>)
    requires GoesOn(c, x, fid, order, key) && Justified(c, y, fid, order, key, record, r)
    ensures Justified(c, x + y, fid, order, key, record, r)
  {
    forall m | m != Found(Pending)
      ensures Met(c, x + y, fid, order, key, m) <==> Met(c, y, fid, order, key, m)
    {
      MetInEither(c, x, y, fid, order, key, m);
    }
  }

  // ----- the statements one by one

  /** The switch on the status of a payment found under the key. */
  predicate SwitchOn(status: PaymentStatus, r: Option<PayResult>) {
    match status
    case Pending => r.None?
    case Succeeded => r.Some? && r.value.PaidWith?
    case Failed => r == Some(PayDeclined)
    case _ => r == Some(AlreadyFinished(status))
  }

  lemma FoundMeets(c: Config, a: Act, fid: nat, order: nat, key: string, m: Meeting)
    requires fid in a.at.flights && (a.at.flights[fid].Looking? || a.at.flights[fid].LookingAgain?) && a.step.Move?
    requires FindPayment(a.at.db.payments, key).Some?
    ensures Met(c, [a], fid, order, key, m) <==>
      m == Found(a.at.db.payments[FindPayment(a.at.db.payments, key).value].status)
  {
    MetOnce(c, a, fid, order, key, m);
  }

  lemma FoundJustifies(c: Config, a: Act, fid: nat, order: nat, key: string, record: Write, r: Option<PayResult>)
    requires fid in a.at.flights && (a.at.flights[fid].Looking? || a.at.flights[fid].LookingAgain?) && a.step.Move?
    requires var p := FindPayment(a.at.db.payments, key); p.Some? && SwitchOn(a.at.db.payments[p.value].status, r)
    ensures Justified(c, [a], fid, order, key, record, r)
  {
    var status := a.at.db.payments[FindPayment(a.at.db.payments, key).value].status;
    forall m ensures Met(c, [a], fid, order, key, m) <==> m == Found(status) {
      FoundMeets(c, a, fid, order, key, m);
    }
    OnlyFound(c, [a], fid, order, key, record, status, r);
  }

  lemma OnlyFound(c: Config, acts: seq<Act>, fid: nat, order: nat, key: string, record: Write, status: PaymentStatus,
                  r: Option<PayResult>)
    requires forall m :: Met(c, acts, fid, order, key, m) <==> m == Found(status)
    requires SwitchOn(status, r)
    ensures Justified(c, acts, fid, order, key, record, r)
  {
  }

  lemma NotFoundJustifies(c: Config, a: Act, fid: nat, order: nat, key: string, record: Write, r: Option<PayResult>)
    requires fid in a.at.flights && (a.at.flights[fid].Looking? || a.at.flights[fid].LookingAgain?) && a.step.Move?
    requires FindPayment(a.at.db.payments, key).None?
    requires r == if a.at.flights[fid].Looking? then None else Some(NotStarted(KeyTaken))
    ensures Justified(c, [a], fid, order, key, record, r)
  {
    forall m ensures Met(c, [a], fid, order, key, m) <==> Meets(c, a, fid, order, key, m) {
      MetOnce(c, a, fid, order, key, m);
    }
  }

  lemma FailureJustifies(c: Config, a: Act, fid: nat, order: nat, key: string, record: Write)
    requires fid in a.at.flights && !a.at.flights[fid].Recording? && (a.step.StatementFails? || a.step.Crash?)
    ensures AnswerFits(c, [a], fid, order, key, record, StoreError)
  {
    forall m ensures Met(c, [a], fid, order, key, m) <==> Meets(c, a, fid, order, key, m) {
      MetOnce(c, a, fid, order, key, m);
    }
  }

  lemma LiveIsFound(db: Db, order: nat)
    ensures HasLivePayment(db, order) <==>
      FindInStatus(db.payments, order, Pending).Some? || FindInStatus(db.payments, order, Succeeded).Some?
  {
    var p, q := FindInStatus(db.payments, order, Pending), FindInStatus(db.payments, order, Succeeded);
    if p.Some? { assert db.payments[p.value].order == order; }
    if q.Some? { assert db.payments[q.value].order == order; }
  }

  /** `start` refuses with a reason exactly if that is the obstacle. */
  lemma StartRefusesExactly(db: Db, order: nat, key: string, keyFirst: bool, now: nat, reason: StartResult)
    ensures var r := StartTx(db, order, key, keyFirst, now).1;
      Obstacle(db, order, key, keyFirst, reason) <==> r == reason && !r.Started? && !r.KeyTaken?
  {
    LiveIsFound(db, order);
  }

  lemma StartJustifies(c: Config, a: Act, fid: nat, order: nat, key: string, record: Write, r: Option<PayResult>)
    requires fid in a.at.flights && a.at.flights[fid] == Starting(order, key) && a.step.Move?
    requires var started := StartTx(a.at.db, order, key, a.step.choice.keyFirst, a.at.clock).1;
      r == if started.Started? || started.KeyTaken? then None else Some(NotStarted(started))
    ensures Justified(c, [a], fid, order, key, record, r)
  {
    forall m ensures Met(c, [a], fid, order, key, m) <==> Meets(c, a, fid, order, key, m) {
      MetOnce(c, a, fid, order, key, m);
    }
    forall reason
      ensures Meets(c, a, fid, order, key, Refused(reason)) <==> r == Some(NotStarted(reason))
    {
      StartRefusesExactly(a.at.db, order, key, a.step.choice.keyFirst, a.at.clock, reason);
    }
  }

  lemma NoReplyJustifies(c: Config, a: Act, fid: nat, order: nat, key: string, record: Write)
    requires fid in a.at.flights && a.at.flights[fid].Charging? && a.step.Move? && !IsHeard(a)
    ensures AnswerFits(c, [a], fid, order, key, record, OutcomeUnknown)
  {
    forall m ensures Met(c, [a], fid, order, key, m) <==> Meets(c, a, fid, order, key, m) {
      MetOnce(c, a, fid, order, key, m);
    }
  }

  /** A charge that was heard, and the record of it. */
  predicate RecordsHeard(a: Act, b: Act, fid: nat, key: string) {
    && fid in a.at.flights && a.at.flights[fid].Charging? && IsHeard(a)
    && fid in b.at.flights && b.at.flights[fid].Recording?
    && (b.at.flights[fid].to == Succeeded <==> Approves(a.at.journal, key, a.step.choice))
    && (b.step.Move? || b.step.StatementFails?)
  }

  /** The answer of a record by what it did to the payment. */
  ghost predicate RecordAnswers(c: Config, b: Act, f: Flight, record: Write, r: PayResult)
    requires f.Recording?
  {
    var moved := b.step.Move? && MovesToSucceeded(c, b, f.payment);
    && (b.step.Move? || b.step.StatementFails?) && (b.step.StatementFails? <==> record == Fails)
    && (moved ==> f.to == Succeeded)
    && (f.to != Succeeded ==> r == PayDeclined)
    && (f.to == Succeeded && moved && record == Works ==> r.PaidWith?)
    && (f.to == Succeeded && moved && record == CommitsUnheard ==> r == NotRecorded(DatabaseError))
    && (f.to == Succeeded && record == Fails ==> r == NotRecorded(DatabaseError))
    && (f.to == Succeeded && record != Fails && !moved ==> r.NotRecorded? && r.why.RecordRefused?)
  }

  /** What a heard charge and its record have met. */
  lemma RecordMet(c: Config, a: Act, b: Act, fid: nat, order: nat, key: string, m: Meeting)
    requires RecordsHeard(a, b, fid, key)
    ensures var to := b.at.flights[fid].to;
      Met(c, [a, b], fid, order, key, m) <==>
        || (m == Approved && to == Succeeded) || (m == Declined && to != Succeeded)
        || (m == Recorded && b.step.Move? && MovesToSucceeded(c, b, b.at.flights[fid].payment))
  {
    assert [a] + [b] == [a, b];
    MetInEither(c, [a], [b], fid, order, key, m);
    MetOnce(c, a, fid, order, key, m);
    MetOnce(c, b, fid, order, key, m);
  }

  lemma RecordJustifies(c: Config, a: Act, b: Act, fid: nat, order: nat, key: string, record: Write, r: PayResult)
    requires RecordsHeard(a, b, fid, key) && RecordAnswers(c, b, b.at.flights[fid], record, r)
    ensures AnswerFits(c, [a, b], fid, order, key, record, r)
  {
    forall m
      ensures Met(c, [a, b], fid, order, key, m) <==>
        || (m == Approved && b.at.flights[fid].to == Succeeded) || (m == Declined && b.at.flights[fid].to != Succeeded)
        || (m == Recorded && b.step.Move? && MovesToSucceeded(c, b, b.at.flights[fid].payment))
    {
      RecordMet(c, a, b, fid, order, key, m);
    }
  }
}
