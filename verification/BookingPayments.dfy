/** The payment calls act on an appointment as on any other order: the two models agree, call by call. */
module BookingPayments {
  import opened Prelude
  import Orders
  import opened Appointments

  function StatusText(s: Orders.Status): string {
    match s
    case Confirmed => "confirmed"
    case PendingVerification => "pending_verification"
    case PendingCash => "pending_cash"
    case Paid => "paid"
    case Preparing => "preparing"
    case Ready => "ready"
    case Delivered => "delivered"
    case Cancelled => "cancelled"
    case Other(name) => name
  }

  const NAMED := {"confirmed", "pending_verification", "pending_cash", "paid", "preparing", "ready", "delivered",
                  "cancelled"}

  // One document, seen as an appointment and as an order.
  ghost predicate Same(a: Appointment, x: Orders.Order) {
    && a.tenant == x.tenant && a.payBy == x.payBy && a.pay == x.pay && a.reference == x.reference
    && a.status == StatusText(x.status) && (x.status.Other? ==> x.status.name !in NAMED)
  }

  ghost predicate SameBook(b: Book, orders: seq<Orders.Order>) {
    |b| == |orders| && forall i | 0 <= i < |b| :: Same(b[i], orders[i])
  }

  lemma Texts(x: Orders.Status)
    requires x.Other? ==> x.name !in NAMED
    ensures StatusText(x) == "pending_cash" <==> x == Orders.PendingCash
    ensures StatusText(x) == "pending_verification" <==> x == Orders.PendingVerification
  {
  }

  lemma OneChanged(b: Book, orders: seq<Orders.Order>, id: nat, a: Appointment, x: Orders.Order)
    requires SameBook(b, orders) && id < |b| && Same(a, x)
    ensures SameBook(b[id := a], orders[id := x])
  {
  }

  /** submitPagomovil, for any declared amount. */
  lemma SubmitsAgree(m: Orders.Machine, b: Book, s: Orders.State, id: nat, amount: real, ref: string, at: int)
    requires SameBook(b, s.orders) && id < |b|
    ensures SameBook(Submit(b, b[id].tenant, id, ref).0, Orders.Apply(m, s, Orders.Submit(id, amount, ref, at)).orders)
    ensures Submit(b, b[id].tenant, id, ref).1.Ok? <==> Orders.Enabled(m, s, Orders.Submit(id, amount, ref, at))
  {
    assert Same(b[id], s.orders[id]);
    assert ReferenceTaken(b, id, ref) <==> Orders.ReferenceUsed(s, id, ref);
    if Orders.Enabled(m, s, Orders.Submit(id, amount, ref, at)) {
      Orders.SubmitWrites(m, s, Orders.Submit(id, amount, ref, at));
    }
    hide Orders.Apply;
  }

  /** verifyPagomovil, when the amount guard lets through what it lets through for the order. */
  lemma VerificationsAgree(m: Orders.Machine, b: Book, s: Orders.State, id: nat, approve: bool, force: bool, auto: bool)
    requires SameBook(b, s.orders) && id < |b|
    ensures var passes := !Orders.AmountBlocked(s.orders[id], force);
      var r := Verify(b, b[id].tenant, id, approve, passes, auto);
      && SameBook(r.0, Orders.Apply(m, s, Orders.Verify(id, approve, force, auto)).orders)
      && (r.1.Ok? <==> Orders.Enabled(m, s, Orders.Verify(id, approve, force, auto)))
  {
    assert Same(b[id], s.orders[id]);
    if Orders.Enabled(m, s, Orders.Verify(id, approve, force, auto)) {
      Orders.VerifyWrites(m, s, Orders.Verify(id, approve, force, auto));
    }
    hide Orders.Apply;
    hide Orders.AmountBlocked;
  }

  /** confirmCashPayment. */
  lemma TillsAgree(m: Orders.Machine, b: Book, s: Orders.State, id: nat, auto: bool, audited: bool, at: int)
    requires SameBook(b, s.orders) && id < |b|
    ensures var r := ConfirmCash(b, b[id].tenant, id, auto);
      && SameBook(r.0, Orders.Apply(m, s, Orders.ConfirmCash(id, auto, audited, at)).orders)
      && (r.1.Ok? <==> Orders.Enabled(m, s, Orders.ConfirmCash(id, auto, audited, at)))
  {
    assert Same(b[id], s.orders[id]);
    Texts(s.orders[id].status);
    if Orders.Enabled(m, s, Orders.ConfirmCash(id, auto, audited, at)) {
      Orders.ConfirmWrites(m, s, Orders.ConfirmCash(id, auto, audited, at));
    }
    hide Orders.Apply;
  }

  /** One order of the sweep for stale payments. */
  lemma ExpiriesAgree(m: Orders.Machine, b: Book, s: Orders.State, id: nat)
    requires SameBook(b, s.orders)
    ensures SameBook(Expire(b, id), Orders.Apply(m, s, Orders.Expire(id)).orders)
  {
    if id < |b| {
      assert Same(b[id], s.orders[id]);
      Texts(s.orders[id].status);
    }
    if Orders.Enabled(m, s, Orders.Expire(id)) {
      Orders.ExpireWrites(m, s, Orders.Expire(id));
    }
    hide Orders.Apply;
  }
}
