/** When two appointments of a professional share a start, over every run of booking and payment calls. */
module DoubleBooking {
  import opened Prelude
  import Orders
  import opened Appointments
  import Slots = BookingSlots

  datatype Call =
    | DoCreate(tenant: string, staff: string, at: int, token: string, payBy: Orders.PayMethod, offered: bool)
    | DoCreateOther(tenant: string, archetype: string, first: string, payBy: Orders.PayMethod)
    | DoReschedule(tenant: string, id: nat, staff: string, at: int, proof: Option<string>)
    | DoCancel(tenant: string, id: nat, proof: Option<string>)
    | DoMove(tenant: string, id: nat, to: string)
    | DoRemind(now: int)
    | DoSubmit(tenant: string, id: nat, ref: string)
    | DoVerify(tenant: string, id: nat, approve: bool, passes: bool, auto: bool)
    | DoConfirmCash(tenant: string, id: nat, auto: bool)
    | DoExpire(id: nat)

  function After(ms: Machines, b: Book, e: Call): Book {
    match e
    case DoCreate(tenant, staff, at, token, payBy, offered) => Create(b, tenant, staff, at, token, payBy, offered).0
    case DoCreateOther(tenant, archetype, first, payBy) => CreateOther(b, tenant, archetype, first, payBy)
    case DoReschedule(tenant, id, staff, at, token) => Reschedule(b, tenant, id, staff, at, token).0
    case DoCancel(tenant, id, token) => Cancel(b, tenant, id, token).0
    case DoMove(tenant, id, to) => Move(ms, b, tenant, id, to).0
    case DoRemind(now) => Remind(b, now)
    case DoSubmit(tenant, id, ref) => Submit(b, tenant, id, ref).0
    case DoVerify(tenant, id, approve, passes, auto) => Verify(b, tenant, id, approve, passes, auto).0
    case DoConfirmCash(tenant, id, auto) => ConfirmCash(b, tenant, id, auto).0
    case DoExpire(id) => Expire(b, id)
  }

  function AfterAll(ms: Machines, b: Book, calls: seq<Call>): Book {
    if calls == [] then b else After(ms, AfterAll(ms, b, calls[..|calls| - 1]), calls[|calls| - 1])
  }

  ghost predicate SameSlot(a: Appointment, b: Appointment) {
    a.tenant == b.tenant && a.staff == b.staff && a.staff.Some? && a.at == b.at && a.at.Some?
  }

  // No two upcoming appointments of a professional share a start.
  ghost predicate NoneTwice(b: Book) {
    forall i, j | 0 <= i < j < |b| && Upcoming(b[i].status) && Upcoming(b[j].status) :: !SameSlot(b[i], b[j])
  }

  // Nor do two standing bookings.
  ghost predicate NoneStandingTwice(b: Book) {
    forall i, j | 0 <= i < j < |b| && Stands(b[i]) && Stands(b[j]) :: !SameSlot(b[i], b[j])
  }

  // --- what the calls do to one entry -----------------------------------------------------

  // Every call but create, reschedule and the sweep for reminders rewrites at most the status of one entry.
  ghost predicate WritesStatus(b: Book, c: Book, id: nat) {
    && id < |b| && |c| == |b|
    && (forall k | 0 <= k < |b| && k != id :: c[k] == b[k])
    && c[id].tenant == b[id].tenant && c[id].archetype == b[id].archetype
    && c[id].staff == b[id].staff && c[id].at == b[id].at
  }

  predicate StatusCall(e: Call) {
    e.DoCancel? || e.DoMove? || e.DoSubmit? || e.DoVerify? || e.DoConfirmCash? || e.DoExpire?
  }

  lemma StatusCallWrites(ms: Machines, b: Book, e: Call)
    requires StatusCall(e)
    ensures After(ms, b, e) == b || WritesStatus(b, After(ms, b, e), e.id)
  {
  }

  // Another standing booking has the slot of this one.
  predicate SlotTaken(b: Book, id: nat)
    requires id < |b|
  {
    && b[id].staff.Some? && b[id].at.Some?
    && exists k | 0 <= k < |b| && k != id :: Occupies(b[k], b[id].tenant, b[id].staff.value, b[id].at.value)
  }

  // Another upcoming appointment has it.
  predicate SlotBlocked(b: Book, id: nat)
    requires id < |b|
  {
    && b[id].staff.Some? && b[id].at.Some?
    && exists k | 0 <= k < |b| && k != id :: Blocks(b[k], b[id].tenant, b[id].staff.value, b[id].at.value)
  }

  lemma SlotTakenIff(b: Book, id: nat)
    requires id < |b|
    ensures SlotTaken(b, id) <==> exists k :: 0 <= k < |b| && k != id && Stands(b[k]) && SameSlot(b[k], b[id])
  {
    forall k | 0 <= k < |b| && k != id
      ensures Stands(b[k]) && SameSlot(b[k], b[id]) <==>
        b[id].staff.Some? && b[id].at.Some? && Occupies(b[k], b[id].tenant, b[id].staff.value, b[id].at.value)
    {
    }
  }

  lemma SlotBlockedIff(b: Book, id: nat)
    requires id < |b|
    ensures SlotBlocked(b, id) <==> exists k ::
      0 <= k < |b| && k != id && Upcoming(b[k].status) && SameSlot(b[k], b[id])
  {
    forall k | 0 <= k < |b| && k != id
      ensures Upcoming(b[k].status) && SameSlot(b[k], b[id]) <==>
        b[id].staff.Some? && b[id].at.Some? && Blocks(b[k], b[id].tenant, b[id].staff.value, b[id].at.value)
    {
    }
  }

  lemma SlotsUnchanged(b: Book, c: Book, id: nat)
    requires WritesStatus(b, c, id)
    ensures forall i, j | 0 <= i < |b| && 0 <= j < |b| :: SameSlot(c[i], c[j]) <==> SameSlot(b[i], b[j])
    ensures forall i, j | 0 <= i < |b| && 0 <= j < |b| :: SameSlot(b[i], b[j]) <==> SameSlot(b[j], b[i])
  {
  }

  /** Rewriting a status keeps standing bookings apart unless it revives one whose slot has been taken. */
  lemma StatusIff(b: Book, c: Book, id: nat)
    requires NoneStandingTwice(b) && WritesStatus(b, c, id)
    ensures NoneStandingTwice(c) <==> !(Stands(c[id]) && !Stands(b[id]) && SlotTaken(b, id))
  {
    SlotTakenIff(b, id);
    if Stands(c[id]) && !Stands(b[id]) && SlotTaken(b, id) {
      var k :| 0 <= k < |b| && k != id && Stands(b[k]) && SameSlot(b[k], b[id]);
      assert Stands(c[k]) && SameSlot(c[k], c[id]) && SameSlot(c[id], c[k]);
    } else {
      SlotsUnchanged(b, c, id);
    }
  }

  lemma UpcomingIff(b: Book, c: Book, id: nat)
    requires NoneTwice(b) && WritesStatus(b, c, id)
    ensures NoneTwice(c) <==> !(Upcoming(c[id].status) && !Upcoming(b[id].status) && SlotBlocked(b, id))
  {
    SlotBlockedIff(b, id);
    if Upcoming(c[id].status) && !Upcoming(b[id].status) && SlotBlocked(b, id) {
      var k :| 0 <= k < |b| && k != id && Upcoming(b[k].status) && SameSlot(b[k], b[id]);
      assert Upcoming(c[k].status) && SameSlot(c[k], c[id]) && SameSlot(c[id], c[k]);
    } else {
      SlotsUnchanged(b, c, id);
    }
  }

  // --- upcoming appointments --------------------------------------------------------------------

  /** updateStatus makes an appointment upcoming at a slot where another one already is. */
  predicate Promotes(ms: Machines, b: Book, e: Call) {
    && e.DoMove? && Move(ms, b, e.tenant, e.id, e.to).1.Ok?
    && Upcoming(e.to) && !Upcoming(b[e.id].status) && SlotBlocked(b, e.id)
  }

  lemma CreateNotTwice(ms: Machines, b: Book, e: Call)
    requires NoneTwice(b) && (e.DoCreate? || e.DoCreateOther?)
    ensures NoneTwice(After(ms, b, e))
  {
    var c := After(ms, b, e);
    if c != b {
      assert |c| == |b| + 1 && forall i | 0 <= i < |b| :: c[i] == b[i];
      assert e.DoCreate? ==> forall i | 0 <= i < |b| :: !Blocks(b[i], e.tenant, e.staff, e.at);
    }
  }

  // Rescheduling and reminding only take appointments out of the upcoming ones.
  lemma LeavingNotTwice(ms: Machines, b: Book, e: Call)
    requires NoneTwice(b) && (e.DoReschedule? || e.DoRemind?)
    ensures NoneTwice(After(ms, b, e))
  {
    var c := After(ms, b, e);
    assert |c| == |b|;
    assert forall i | 0 <= i < |b| :: c[i] == b[i] || !Upcoming(c[i].status);
  }

  /** One call keeps upcoming appointments apart exactly when it does not promote one onto another. */
  lemma StepNoneTwiceIff(ms: Machines, b: Book, e: Call)
    requires NoneTwice(b)
    ensures NoneTwice(After(ms, b, e)) <==> !Promotes(ms, b, e)
  {
    if e.DoCreate? || e.DoCreateOther? {
      CreateNotTwice(ms, b, e);
    } else if e.DoReschedule? || e.DoRemind? {
      LeavingNotTwice(ms, b, e);
    } else {
      StatusCallWrites(ms, b, e);
      if e.DoMove? && Move(ms, b, e.tenant, e.id, e.to).1.Ok? {
        assert After(ms, b, e)[e.id].status == e.to;
      }
      if After(ms, b, e) != b {
        UpcomingIff(b, After(ms, b, e), e.id);
      }
    }
  }

  ghost predicate NeverPromotes(ms: Machines, calls: seq<Call>)
    decreases |calls|
  {
    calls != [] ==>
      NeverPromotes(ms, calls[..|calls| - 1])
        && !Promotes(ms, AfterAll(ms, [], calls[..|calls| - 1]), calls[|calls| - 1])
  }

  ghost predicate AlwaysNoneTwice(ms: Machines, calls: seq<Call>)
    decreases |calls|
  {
    NoneTwice(AfterAll(ms, [], calls)) && (calls != [] ==> AlwaysNoneTwice(ms, calls[..|calls| - 1]))
  }

  /** Over every run of booking and payment calls, upcoming appointments of a professional never share a start
      exactly when no status move of the run promoted one onto another. */
  lemma {:induction false} NoneTwiceIff(ms: Machines, calls: seq<Call>)
    ensures AlwaysNoneTwice(ms, calls) <==> NeverPromotes(ms, calls)
  {
    if calls != [] {
      var n := |calls| - 1;
      NoneTwiceIff(ms, calls[..n]);
      if AlwaysNoneTwice(ms, calls[..n]) {
        assert NoneTwice(AfterAll(ms, [], calls[..n]));
        StepNoneTwiceIff(ms, AfterAll(ms, [], calls[..n]), calls[n]);
      }
    } else {
      assert AfterAll(ms, [], []) == [];
    }
  }

  /** In particular over every run without status moves: creates, reschedules, cancellations, reminders and
      every payment call. */
  lemma {:induction false} NoDoubleBooking(ms: Machines, calls: seq<Call>)
    requires forall e | e in calls :: !e.DoMove?
    ensures NoneTwice(AfterAll(ms, [], calls))
  {
    NeverMoved(ms, calls);
    NoneTwiceIff(ms, calls);
  }

  lemma {:induction false} NeverMoved(ms: Machines, calls: seq<Call>)
    requires forall e | e in calls :: !e.DoMove?
    ensures NeverPromotes(ms, calls)
  {
    if calls != [] {
      var n := |calls| - 1;
      assert calls[n] in calls && forall e | e in calls[..n] :: e in calls;
      NeverMoved(ms, calls[..n]);
    }
  }

  // --- standing bookings --------------------------------------------------------------------------

  /** A booking that stands at the slot without being upcoming, which the filter of create does not look at:
      rescheduled there, reminded, pending, completed, or with a payment in review or made. */
  predicate Overlooked(b: Book, e: Call)
    requires e.DoCreate?
  {
    exists i | 0 <= i < |b| :: Occupies(b[i], e.tenant, e.staff, e.at) && !Upcoming(b[i].status)
  }

  predicate Succeeds(b: Book, e: Call)
    requires e.DoCreate?
  {
    Create(b, e.tenant, e.staff, e.at, e.token, e.payBy, e.offered).1.Ok?
  }

  /** The payment call is accepted for a booking that was called off, and brings it back. */
  predicate Revives(b: Book, e: Call) {
    || (e.DoSubmit? && Submit(b, e.tenant, e.id, e.ref).1.Ok? && CalledOff(b[e.id]))
    || (e.DoVerify? && e.approve && Verify(b, e.tenant, e.id, true, e.passes, e.auto).1.Ok? && CalledOff(b[e.id]))
  }

  predicate CalledOff(a: Appointment) {
    a.archetype == "booking" && (a.status == "cancelled" || a.status == "no_show")
  }

  /** What brings two standing bookings together, seen before the call. */
  predicate Collides(b: Book, e: Call) {
    || (e.DoCreate? && Succeeds(b, e) && Overlooked(b, e))
    || (Revives(b, e) && SlotTaken(b, e.id))
  }

  lemma CreateKeepsIff(b: Book, e: Call)
    requires NoneStandingTwice(b) && e.DoCreate? && Succeeds(b, e)
    ensures NoneStandingTwice(Create(b, e.tenant, e.staff, e.at, e.token, e.payBy, e.offered).0) <==> !Overlooked(b, e)
  {
    var x := NewBooking(e.tenant, e.staff, e.at, e.token, e.payBy);
    var c := b + [x];
    assert Create(b, e.tenant, e.staff, e.at, e.token, e.payBy, e.offered).0 == c && c[|b|] == x;
    forall i | 0 <= i < |b|
      ensures c[i] == b[i]
      ensures Stands(b[i]) && SameSlot(b[i], x) <==> Occupies(b[i], e.tenant, e.staff, e.at) && !Upcoming(b[i].status)
    {
      assert !Blocks(b[i], e.tenant, e.staff, e.at);
    }
  }

  lemma RescheduleKeeps(b: Book, tenant: string, id: nat, staff: string, at: int, token: Option<string>)
    requires NoneStandingTwice(b)
    ensures NoneStandingTwice(Reschedule(b, tenant, id, staff, at, token).0)
  {
    var c := Reschedule(b, tenant, id, staff, at, token).0;
    if c != b {
      forall i, j | 0 <= i < j < |c| && Stands(c[i]) && Stands(c[j])
        ensures !SameSlot(c[i], c[j])
      {
        var other := if i == id then j else i;
        assert (i == id || j == id) && SameSlot(c[i], c[j]) ==> Occupies(b[other], tenant, staff, at);
      }
    }
  }

  lemma RemindKeeps(b: Book, now: int)
    requires NoneStandingTwice(b)
    ensures NoneStandingTwice(Remind(b, now))
  {
    var c := Remind(b, now);
    forall i | 0 <= i < |b|
      ensures c[i].tenant == b[i].tenant && c[i].staff == b[i].staff && c[i].at == b[i].at
        && (Stands(c[i]) <==> Stands(b[i]))
    {
    }
  }

  // Among the calls that write a status only submit and approve bring a booking back.
  lemma RevivesIff(ms: Machines, b: Book, e: Call)
    requires StatusCall(e) && WritesStatus(b, After(ms, b, e), e.id)
    ensures Stands(After(ms, b, e)[e.id]) && !Stands(b[e.id]) <==> Revives(b, e)
  {
  }

  /** One call keeps standing bookings apart exactly when it is not a create that overlooks one, nor a payment
      that revives one whose slot has been taken. */
  lemma StepApartIff(ms: Machines, b: Book, e: Call)
    requires NoneStandingTwice(b)
    ensures NoneStandingTwice(After(ms, b, e)) <==> !Collides(b, e)
  {
    match e
    case DoCreate(_, _, _, _, _, _) =>
      if Succeeds(b, e) {
        CreateKeepsIff(b, e);
      }
    case DoCreateOther(_, _, _, _) =>
      var c := After(ms, b, e);
      assert c != b ==> !Stands(c[|b|]);
    case DoReschedule(tenant, id, staff, at, token) => RescheduleKeeps(b, tenant, id, staff, at, token);
    case DoRemind(now) => RemindKeeps(b, now);
    case _ =>
      StatusCallWrites(ms, b, e);
      if After(ms, b, e) != b {
        StatusIff(b, After(ms, b, e), e.id);
        RevivesIff(ms, b, e);
      }
  }

  ghost predicate NeverCollides(ms: Machines, calls: seq<Call>)
    decreases |calls|
  {
    calls != [] ==>
      NeverCollides(ms, calls[..|calls| - 1]) && !Collides(AfterAll(ms, [], calls[..|calls| - 1]), calls[|calls| - 1])
  }

  ghost predicate AlwaysApart(ms: Machines, calls: seq<Call>)
    decreases |calls|
  {
    NoneStandingTwice(AfterAll(ms, [], calls)) && (calls != [] ==> AlwaysApart(ms, calls[..|calls| - 1]))
  }

  /** Standing bookings stay apart at every point of a run of booking and payment calls exactly when no create of
      the run overlooked one and no payment revived one whose slot had been taken. */
  lemma {:induction false} AlwaysApartIff(ms: Machines, calls: seq<Call>)
    ensures AlwaysApart(ms, calls) <==> NeverCollides(ms, calls)
  {
    if calls != [] {
      var n := |calls| - 1;
      AlwaysApartIff(ms, calls[..n]);
      if AlwaysApart(ms, calls[..n]) {
        assert NoneStandingTwice(AfterAll(ms, [], calls[..n]));
        StepApartIff(ms, AfterAll(ms, [], calls[..n]), calls[n]);
      }
    } else {
      assert AfterAll(ms, [], []) == [];
    }
  }

  // --- runs that fail ---------------------------------------------------------------------------------

  lemma Extend(ms: Machines, calls: seq<Call>, e: Call) returns (more: seq<Call>)
    ensures more == calls + [e] && AfterAll(ms, [], more) == After(ms, AfterAll(ms, [], calls), e)
  {
    more := calls + [e];
    assert more[..|calls|] == calls;
  }

  function Ana(at: int, status: string, token: string, pay: Orders.PayStatus, reference: Option<string>): Appointment {
    Appointment("t", "booking", Some("ana"), Some(at), status, Some(token), Orders.Pagomovil, pay, reference)
  }

  /** An appointment is moved to ten, another is created at ten, the first is confirmed: both are upcoming. */
  lemma ConfirmedTwice(ms: Machines)
    ensures exists calls :: !NoneTwice(AfterAll(ms, [], calls))
  {
    assert AfterAll(ms, [], []) == [];
    var calls := Extend(ms, [], DoCreate("t", "ana", 9, "x", Orders.Pagomovil, true));
    calls := Extend(ms, calls, DoReschedule("t", 0, "ana", 10, None));
    assert AfterAll(ms, [], calls) == [Ana(10, "rescheduled", "x", Orders.PayPending, None)];
    calls := Extend(ms, calls, DoCreate("t", "ana", 10, "y", Orders.Pagomovil, true));
    calls := Extend(ms, calls, DoMove("t", 0, "confirmed"));
    var b := AfterAll(ms, [], calls);
    assert |b| == 2 && SameSlot(b[0], b[1]) && Upcoming(b[0].status) && Upcoming(b[1].status);
  }

  const FIRST: Call := DoCreate("t", "ana", 10, "x", Orders.Pagomovil, true)
  const SECOND: Call := DoCreate("t", "ana", 10, "y", Orders.Pagomovil, true)
  const NEW_ONE: Appointment := Ana(10, "scheduled", "y", Orders.PayPending, None)

  lemma FirstCreate(ms: Machines)
    ensures !Overlooked([], FIRST) && After(ms, [], FIRST) == [Ana(10, "scheduled", "x", Orders.PayPending, None)]
  {
  }

  // The slot of an appointment that was called off is given away.
  lemma SecondCreate(ms: Machines, old_: Appointment)
    requires old_.status == "cancelled"
    ensures !Overlooked([old_], SECOND) && After(ms, [old_], SECOND) == [old_, NEW_ONE]
  {
  }

  lemma BothStand(old_: Appointment)
    requires SameSlot(old_, NEW_ONE) && Stands(old_)
    ensures !NoneStandingTwice([old_, NEW_ONE])
  {
    var b := [old_, NEW_ONE];
    assert Stands(b[0]) && Stands(b[1]) && SameSlot(b[0], b[1]);
  }

  lemma Cancels(ms: Machines, a: Appointment)
    requires a.tenant == "t"
    ensures After(ms, [a], DoCancel("t", 0, None)) == [a.(status := "cancelled")]
  {
  }

  lemma Submits(ms: Machines, b: Book)
    requires b != [] && |b| <= 2 && forall a | a in b :: a.tenant == "t" && a.reference == None
    requires b[0].payBy == Orders.Pagomovil && b[0].pay == Orders.PayPending
    ensures After(ms, b, DoSubmit("t", 0, "r"))
         == [b[0].(status := "pending_verification", pay := Orders.PayInReview, reference := Some("r"))] + b[1..]
  {
  }

  lemma Approves(ms: Machines, a: Appointment, b: Appointment)
    requires a.tenant == "t" && a.pay == Orders.PayInReview
    ensures After(ms, [a, b], DoVerify("t", 0, true, true, false))
      == [a.(status := "paid", pay := Orders.PayApproved), b]
  {
  }

  // No create of the run overlooks a booking.
  ghost predicate CreatesLook(ms: Machines, calls: seq<Call>)
    decreases |calls|
  {
    calls != [] ==>
      && CreatesLook(ms, calls[..|calls| - 1])
      && (calls[|calls| - 1].DoCreate? ==> !Overlooked(AfterAll(ms, [], calls[..|calls| - 1]), calls[|calls| - 1]))
  }

  lemma ExtendLooking(ms: Machines, calls: seq<Call>, e: Call, b: Book, c: Book) returns (more: seq<Call>)
    requires CreatesLook(ms, calls) && AfterAll(ms, [], calls) == b && After(ms, b, e) == c
    requires e.DoCreate? ==> !Overlooked(b, e)
    ensures CreatesLook(ms, more) && AfterAll(ms, [], more) == c
  {
    more := calls + [e];
    assert more[..|calls|] == calls;
  }

  /** An appointment is created and cancelled, another is created at its slot, and the first is paid for: both
      stand there, although no create overlooked anything. */
  lemma RevivedBySubmit(ms: Machines) returns (calls: seq<Call>)
    ensures CreatesLook(ms, calls) && !NoneStandingTwice(AfterAll(ms, [], calls))
  {
    var x := Ana(10, "scheduled", "x", Orders.PayPending, None);
    var off := x.(status := "cancelled");
    var back := off.(status := "pending_verification", pay := Orders.PayInReview, reference := Some("r"));
    FirstCreate(ms);
    Cancels(ms, x);
    SecondCreate(ms, off);
    Submits(ms, [off, NEW_ONE]);
    BothStand(back);
    assert [back] + [off, NEW_ONE][1..] == [back, NEW_ONE];
    hide After;
    hide Overlooked;
    hide NoneStandingTwice;
    calls := ExtendLooking(ms, [], FIRST, [], [x]);
    calls := ExtendLooking(ms, calls, DoCancel("t", 0, None), [x], [off]);
    calls := ExtendLooking(ms, calls, SECOND, [off], [off, NEW_ONE]);
    calls := ExtendLooking(ms, calls, DoSubmit("t", 0, "r"), [off, NEW_ONE], [back, NEW_ONE]);
  }

  /** The same through the review: created, submitted, cancelled, its slot given away, then approved. */
  lemma RevivedByApproval(ms: Machines) returns (calls: seq<Call>)
    ensures CreatesLook(ms, calls) && !NoneStandingTwice(AfterAll(ms, [], calls))
  {
    var x := Ana(10, "scheduled", "x", Orders.PayPending, None);
    var y := x.(status := "pending_verification", pay := Orders.PayInReview, reference := Some("r"));
    var off := y.(status := "cancelled");
    var back := off.(status := "paid", pay := Orders.PayApproved);
    FirstCreate(ms);
    Submits(ms, [x]);
    Cancels(ms, y);
    SecondCreate(ms, off);
    Approves(ms, off, NEW_ONE);
    BothStand(back);
    assert [y] + [x][1..] == [y];
    hide After;
    hide Overlooked;
    hide NoneStandingTwice;
    calls := ExtendLooking(ms, [], FIRST, [], [x]);
    calls := ExtendLooking(ms, calls, DoSubmit("t", 0, "r"), [x], [y]);
    calls := ExtendLooking(ms, calls, DoCancel("t", 0, None), [y], [off]);
    calls := ExtendLooking(ms, calls, SECOND, [off], [off, NEW_ONE]);
    calls := ExtendLooking(ms, calls, DoVerify("t", 0, true, true, false), [off, NEW_ONE], [back, NEW_ONE]);
  }

  // --- booking through the day view -----------------------------------------------------------

  // The orders as the slot views read them.
  function Bookings(b: Book): seq<Slots.Booking> {
    if b == [] then []
    else
      var a := b[|b| - 1];
      Bookings(b[..|b| - 1]) +
      if a.staff.Some? && a.at.Some? then [Slots.Booking(a.tenant, a.staff.value, a.archetype, a.status, a.at.value)]
        else []
  }

  lemma {:induction false} BookingListed(b: Book, i: nat)
    requires i < |b| && b[i].staff.Some? && b[i].at.Some?
    ensures Slots.Booking(b[i].tenant, b[i].staff.value, b[i].archetype, b[i].status, b[i].at.value) in Bookings(b)
  {
    if i < |b| - 1 {
      BookingListed(b[..|b| - 1], i);
    }
  }

  /** A create at a slot the day view shows free, within the window that view reads, overlooks nothing. */
  lemma {:induction false} FreeSlotIsSafe(
      b: Book, staff: seq<Slots.Staff>, q: Slots.Query, s: Slots.Staff, day: int, i: nat, e: Call)
    requires NoneStandingTwice(b) && q.duration > 0
    requires var slots := Slots.DayOf(Slots.Database(staff, Bookings(b)), q, s, day);
      && i < |slots| && slots[i].available
      && Slots.WindowStart(day, q.serverZone) <= slots[i].at <= Slots.WindowEnd(day, q.serverZone)
      && e.DoCreate? && e.tenant == q.tenant && e.staff == s.id && e.at == slots[i].at
    ensures !Overlooked(b, e)
    ensures NoneStandingTwice(Create(b, e.tenant, e.staff, e.at, e.token, e.payBy, e.offered).0)
  {
    var db := Slots.Database(staff, Bookings(b));
    Slots.FreeMeans(db, q, s, day, i);
    forall k | 0 <= k < |b|
      ensures !Occupies(b[k], e.tenant, e.staff, e.at)
    {
      if AtSlot(b[k], e.tenant, e.staff, e.at) {
        BookingListed(b, k);
        var x := Slots.Booking(b[k].tenant, e.staff, b[k].archetype, b[k].status, e.at);
        assert x in db.bookings && !Slots.BookedAt(db.bookings, q.tenant, s.id, e.at);
      }
    }
    if Succeeds(b, e) {
      CreateKeepsIff(b, e);
    }
  }

  // --- on one grid of slots, intervals are disjoint ------------------------------------------------

  // One of the slots a day view lists between start and end.
  ghost predicate OnGrid(at: int, start: int, end: int, step: int)
    requires step > 0
  {
    exists k: nat :: k < |Slots.DaySlots(start, end, step, {})| && at == Slots.DaySlots(start, end, step, {})[k].at
  }

  lemma GridGap(x: int, y: int, start: int, end: int, step: int)
    requires step > 0 && OnGrid(x, start, end, step) && OnGrid(y, start, end, step) && x < y
    ensures x + step <= y
  {
    var slots := Slots.DaySlots(start, end, step, {});
    var k: nat :| k < |slots| && x == slots[k].at;
    var l: nat :| l < |slots| && y == slots[l].at;
    if k < l {
      Slots.StepsGrow(step, k, l);
    } else {
      Slots.StepsGrow(step, l, k);
    }
  }

  ghost predicate StartsOnGrid(calls: seq<Call>, start: int, end: int, step: int)
    requires step > 0
  {
    forall e | e in calls && (e.DoCreate? || e.DoReschedule?) :: OnGrid(e.at, start, end, step)
  }

  ghost predicate BookOnGrid(b: Book, start: int, end: int, step: int)
    requires step > 0
  {
    forall a | a in b && a.at.Some? :: OnGrid(a.at.value, start, end, step)
  }

  lemma StepOnGrid(ms: Machines, b: Book, e: Call, start: int, end: int, step: int)
    requires step > 0 && BookOnGrid(b, start, end, step)
    requires e.DoCreate? || e.DoReschedule? ==> OnGrid(e.at, start, end, step)
    ensures BookOnGrid(After(ms, b, e), start, end, step)
  {
    var c := After(ms, b, e);
    forall i | 0 <= i < |c| && c[i].at.Some?
      ensures (i < |b| && c[i].at == b[i].at) || ((e.DoCreate? || e.DoReschedule?) && c[i].at == Some(e.at))
    {
    }
    forall a | a in c && a.at.Some?
      ensures OnGrid(a.at.value, start, end, step)
    {
      var i :| 0 <= i < |c| && c[i] == a;
      assert i < |b| ==> b[i] in b;
    }
  }

  lemma {:induction false} RunOnGrid(ms: Machines, calls: seq<Call>, start: int, end: int, step: int)
    requires step > 0 && StartsOnGrid(calls, start, end, step)
    ensures BookOnGrid(AfterAll(ms, [], calls), start, end, step)
  {
    if calls != [] {
      var n := |calls| - 1;
      assert calls[n] in calls && forall e | e in calls[..n] :: e in calls;
      RunOnGrid(ms, calls[..n], start, end, step);
      StepOnGrid(ms, AfterAll(ms, [], calls[..n]), calls[n], start, end, step);
    }
  }

  /** Over every run without status moves whose starts are slots of one grid, the intervals of any two upcoming
      appointments of one professional are disjoint. */
  lemma IntervalsDisjoint(ms: Machines, calls: seq<Call>, start: int, end: int, step: int, i: nat, j: nat)
    requires step > 0 && StartsOnGrid(calls, start, end, step) && forall e | e in calls :: !e.DoMove?
    requires var b := AfterAll(ms, [], calls);
      && i < |b| && j < |b| && i != j && Upcoming(b[i].status) && Upcoming(b[j].status)
      && b[i].tenant == b[j].tenant && b[i].staff == b[j].staff && b[i].staff.Some? && b[i].at.Some? && b[j].at.Some?
    ensures var b := AfterAll(ms, [], calls);
      b[i].at.value + step <= b[j].at.value || b[j].at.value + step <= b[i].at.value
  {
    var b := AfterAll(ms, [], calls);
    NoDoubleBooking(ms, calls);
    RunOnGrid(ms, calls, start, end, step);
    hide AfterAll;
    assert b[i] in b && b[j] in b;
    assert if i < j then !SameSlot(b[i], b[j]) else !SameSlot(b[j], b[i]);
    var x, y := b[i].at.value, b[j].at.value;
    if x < y {
      GridGap(x, y, start, end, step);
    } else {
      GridGap(y, x, start, end, step);
    }
  }
}
