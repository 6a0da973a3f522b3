/** Appointments of professionals: created, rescheduled, cancelled, reminded, moved by the booking machine, and
    rewritten by the payment calls. */
module Appointments {
  import opened Prelude
  import Orders
  import Slots = BookingSlots

  // An order as far as appointments go; other archetypes have no professional unless they are rescheduled.
  datatype Appointment = Appointment(
    tenant: string, archetype: string, staff: Option<string>, at: Option<int>, status: string, token: Option<string>,
    payBy: Orders.PayMethod, pay: Orders.PayStatus, reference: Option<string>)

  type Book = seq<Appointment>

  datatype BookingError = NotFound | BadToken | Taken | NoProfessional | InvalidTransition | PaymentRefused

  // The shipped booking machine.
  const MOVES: set<(string, string)> := {
    ("scheduled", "confirmed"), ("scheduled", "in_progress"), ("scheduled", "rescheduled"),
    ("scheduled", "cancelled"), ("scheduled", "no_show"),
    ("pending", "confirmed"), ("pending", "cancelled"),
    ("confirmed", "reminder_sent"), ("confirmed", "in_progress"), ("confirmed", "rescheduled"),
    ("confirmed", "cancelled"), ("confirmed", "no_show"),
    ("reminder_sent", "in_progress"), ("reminder_sent", "rescheduled"), ("reminder_sent", "cancelled"),
    ("reminder_sent", "no_show"),
    ("in_progress", "completed"), ("in_progress", "cancelled"),
    ("rescheduled", "confirmed"), ("rescheduled", "cancelled")}

  // The machines of the other archetypes are a parameter.
  type Machines = map<string, set<(string, string)>>

  predicate MayMove(ms: Machines, archetype: string, from: string, to: string) {
    if archetype == "booking" then (from, to) in MOVES
    else archetype in ms && (from, to) in ms[archetype]
  }

  // --- the two conflict filters -----------------------------------------------------

  // createOrder looks at these statuses only, and at every archetype.
  predicate Upcoming(status: string) {
    status == "scheduled" || status == "confirmed" || status == "in_progress"
  }

  // rescheduleBooking, and the slot views, look at every booking that was not called off.
  predicate Stands(a: Appointment) {
    Slots.StandingBooking(a.archetype, a.status)
  }

  predicate AtSlot(a: Appointment, tenant: string, staff: string, at: int) {
    a.tenant == tenant && a.staff == Some(staff) && a.at == Some(at)
  }

  predicate Blocks(a: Appointment, tenant: string, staff: string, at: int) {
    AtSlot(a, tenant, staff, at) && Upcoming(a.status)
  }

  predicate Occupies(a: Appointment, tenant: string, staff: string, at: int) {
    AtSlot(a, tenant, staff, at) && Stands(a)
  }

  // --- the operations on the book ------------------------------------------------------

  predicate TokenOk(stored: Option<string>, provided: Option<string>) {
    provided.None? || stored.None? || stored.value == "" || provided.value == stored.value
  }

  function NewBooking(tenant: string, staff: string, at: int, token: string, payBy: Orders.PayMethod): Appointment {
    Appointment(tenant, "booking", Some(staff), Some(at), "scheduled", Some(token), payBy, Orders.PayPending, None)
  }

  // createOrder for a booking; `offered` says that the professional exists, is active and offers the service.
  function Create(b: Book, tenant: string, staff: string, at: int, token: string, payBy: Orders.PayMethod,
                  offered: bool):
    (Book, Result<nat, BookingError>)
  {
    if exists i | 0 <= i < |b| :: Blocks(b[i], tenant, staff, at) then (b, Err(Taken))
    else if !offered then (b, Err(NoProfessional))
    else (b + [NewBooking(tenant, staff, at, token, payBy)], Ok(|b|))
  }

  // createOrder for another archetype: no professional, no start, no token.
  function CreateOther(b: Book, tenant: string, archetype: string, status: string, payBy: Orders.PayMethod): Book {
    if archetype == "booking" then b
    else b + [Appointment(tenant, archetype, None, None, status, None, payBy, Orders.PayPending, None)]
  }

  predicate Found(b: Book, tenant: string, id: nat) {
    id < |b| && b[id].tenant == tenant
  }

  // Any order of the tenant, whatever its archetype and status.
  function Reschedule(b: Book, tenant: string, id: nat, staff: string, at: int, token: Option<string>):
    (Book, Result<nat, BookingError>)
  {
    if !Found(b, tenant, id) then (b, Err(NotFound))
    else if !TokenOk(b[id].token, token) then (b, Err(BadToken))
    else if exists i | 0 <= i < |b| :: i != id && Occupies(b[i], tenant, staff, at) then (b, Err(Taken))
    else (b[id := b[id].(staff := Some(staff), at := Some(at), status := "rescheduled")], Ok(id))
  }

  function Cancel(b: Book, tenant: string, id: nat, token: Option<string>): (Book, Result<nat, BookingError>) {
    if !Found(b, tenant, id) then (b, Err(NotFound))
    else if !TokenOk(b[id].token, token) then (b, Err(BadToken))
    else (b[id := b[id].(status := "cancelled")], Ok(id))
  }

  function Move(ms: Machines, b: Book, tenant: string, id: nat, to: string): (Book, Result<nat, BookingError>) {
    if !Found(b, tenant, id) then (b, Err(NotFound))
    else if !MayMove(ms, b[id].archetype, b[id].status, to) then (b, Err(InvalidTransition))
    else (b[id := b[id].(status := to)], Ok(id))
  }

  predicate Due(a: Appointment, now: int) {
    a.archetype == "booking" && (a.status == "scheduled" || a.status == "confirmed")
    && a.at.Some? && now + 23 * 3600000 <= a.at.value <= now + 25 * 3600000
  }

  function Reminded(a: Appointment, now: int): Appointment {
    if Due(a, now) then a.(status := "reminder_sent") else a
  }

  function DueCount(b: Book, now: int): nat {
    if b == [] then 0 else DueCount(b[..|b| - 1], now) + if Due(b[|b| - 1], now) then 1 else 0
  }

  function Remind(b: Book, now: int): Book {
    seq(|b|, i requires 0 <= i < |b| => Reminded(b[i], now))
  }

  // --- the payment calls, which write the status of a booking like that of any order -------------

  predicate ReferenceTaken(b: Book, id: nat, ref: string)
    requires id < |b|
  {
    exists j | 0 <= j < |b| && j != id :: b[j].tenant == b[id].tenant && b[j].reference == Some(ref)
  }

  function Submit(b: Book, tenant: string, id: nat, ref: string): (Book, Result<nat, BookingError>) {
    if !Found(b, tenant, id) then (b, Err(NotFound))
    else if b[id].payBy != Orders.Pagomovil || b[id].pay != Orders.PayPending || ReferenceTaken(b, id, ref) then
      (b, Err(PaymentRefused))
    else
      (b[id := b[id].(status := "pending_verification", pay := Orders.PayInReview, reference := Some(ref))], Ok(id))
  }

  function PaidText(auto: bool): string {
    if auto then "preparing" else "paid"
  }

  // `passes` says that the amount guard lets an approval through.
  function Verify(b: Book, tenant: string, id: nat, approve: bool, passes: bool, auto: bool):
    (Book, Result<nat, BookingError>)
  {
    if !Found(b, tenant, id) then (b, Err(NotFound))
    else if b[id].pay != Orders.PayInReview || (approve && !passes) then (b, Err(PaymentRefused))
    else if approve then (b[id := b[id].(status := PaidText(auto), pay := Orders.PayApproved)], Ok(id))
    else (b[id := b[id].(status := "cancelled", pay := Orders.PayRejected)], Ok(id))
  }

  function ConfirmCash(b: Book, tenant: string, id: nat, auto: bool): (Book, Result<nat, BookingError>) {
    if !Found(b, tenant, id) then (b, Err(NotFound))
    else if (b[id].payBy != Orders.Cash && b[id].payBy != Orders.DebitCard) || b[id].status != "pending_cash" then
      (b, Err(PaymentRefused))
    else (b[id := b[id].(status := PaidText(auto), pay := Orders.PayApproved)], Ok(id))
  }

  // One order found by the sweep for stale payments.
  function Expire(b: Book, id: nat): Book {
    if id < |b| && b[id].status == "pending_verification"
    then b[id := b[id].(status := "cancelled", pay := Orders.PayRejected)] else b
  }

  class BookingService {
    var orders: Book

    constructor ()
      ensures orders == []
    {
      orders := [];
    }

    method CreateBooking(tenant: string, staff: string, at: int, token: string, payBy: Orders.PayMethod, offered: bool)
      returns (r: Result<nat, BookingError>)
      modifies this
      ensures (orders, r) == Create(old(orders), tenant, staff, at, token, payBy, offered)
    {
      if exists i | 0 <= i < |orders| :: Blocks(orders[i], tenant, staff, at) {
        return Err(Taken);
      }
      if !offered {
        return Err(NoProfessional);
      }
      var id := |orders|;
      orders := orders + [NewBooking(tenant, staff, at, token, payBy)];
      r := Ok(id);
    }

    method RescheduleBooking(tenant: string, id: nat, staff: string, at: int, token: Option<string>)
      returns (r: Result<nat, BookingError>)
      modifies this
      ensures (orders, r) == Reschedule(old(orders), tenant, id, staff, at, token)
    {
      if id >= |orders| || orders[id].tenant != tenant {
        return Err(NotFound);
      }
      var order := orders[id];
      if !TokenOk(order.token, token) {
        return Err(BadToken);
      }
      if exists i | 0 <= i < |orders| :: i != id && Occupies(orders[i], tenant, staff, at) {
        return Err(Taken);
      }
      order := order.(staff := Some(staff));
      order := order.(at := Some(at));
      order := order.(status := "rescheduled");
      orders := orders[id := order];
      r := Ok(id);
    }

    method CancelBooking(tenant: string, id: nat, token: Option<string>) returns (r: Result<nat, BookingError>)
      modifies this
      ensures (orders, r) == Cancel(old(orders), tenant, id, token)
    {
      if id >= |orders| || orders[id].tenant != tenant {
        return Err(NotFound);
      }
      if !TokenOk(orders[id].token, token) {
        return Err(BadToken);
      }
      orders := orders[id := orders[id].(status := "cancelled")];
      r := Ok(id);
    }

    method UpdateStatus(ms: Machines, tenant: string, id: nat, to: string) returns (r: Result<nat, BookingError>)
      modifies this
      ensures (orders, r) == Move(ms, old(orders), tenant, id, to)
    {
      if id >= |orders| || orders[id].tenant != tenant {
        return Err(NotFound);
      }
      if !MayMove(ms, orders[id].archetype, orders[id].status, to) {
        return Err(InvalidTransition);
      }
      orders := orders[id := orders[id].(status := to)];
      r := Ok(id);
    }

    method SendReminders(now: int) returns (sent: nat)
      modifies this
      ensures orders == Remind(old(orders), now) && sent == DueCount(old(orders), now)
    {
      hide Due;
      sent := 0;
      assert old(orders)[..0] == [];
      for i := 0 to |orders|
        invariant |orders| == |old(orders)| && sent == DueCount(old(orders)[..i], now)
        invariant forall k | 0 <= k < i :: orders[k] == Reminded(old(orders)[k], now)
        invariant forall k | i <= k < |orders| :: orders[k] == old(orders)[k]
      {
        assert old(orders)[..i + 1][..i] == old(orders)[..i];
        if Due(orders[i], now) {
          orders := orders[i := orders[i].(status := "reminder_sent")];
          sent := sent + 1;
        }
      }
      assert old(orders)[..|orders|] == old(orders);
    }
  }
}
