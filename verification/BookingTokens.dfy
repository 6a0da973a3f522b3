/** The cancellation token of a booking over every run, and which bookings a sweep reminds. */
module BookingTokens {
  import opened Prelude
  import Orders
  import opened Appointments
  import opened DoubleBooking

  // No call writes the token, the tenant or the payment method of an existing order.
  ghost predicate SameToken(b: Book, c: Book) {
    |b| <= |c| && forall i | 0 <= i < |b| :: c[i].token == b[i].token && c[i].tenant == b[i].tenant
  }

  lemma StepSameToken(ms: Machines, b: Book, e: Call)
    ensures SameToken(b, After(ms, b, e))
  {
  }

  lemma {:induction false} RunSameToken(ms: Machines, b: Book, calls: seq<Call>)
    ensures SameToken(b, AfterAll(ms, b, calls))
  {
    if calls != [] {
      RunSameToken(ms, b, calls[..|calls| - 1]);
      StepSameToken(ms, AfterAll(ms, b, calls[..|calls| - 1]), calls[|calls| - 1]);
      hide After;
    }
  }

  lemma {:induction false} RunsAfter(ms: Machines, b: Book, first: seq<Call>, second: seq<Call>)
    ensures AfterAll(ms, b, first + second) == AfterAll(ms, AfterAll(ms, b, first), second)
  {
    if second == [] {
      assert first + second == first;
    } else {
      RunsAfter(ms, b, first, second[..|second| - 1]);
      assert (first + second)[..|first + second| - 1] == first + second[..|second| - 1];
    }
  }

  /** A booking is created with a token. In every later run, whatever happened to it, a call that presents a token
      cancels it exactly when it is that one; one that presents none, the administrator's, always does. Refused calls
      change nothing. */
  lemma OnlyItsTokenCancels(ms: Machines, before: seq<Call>, e: Call, later: seq<Call>, proof: Option<string>)
    requires e.DoCreate? && Succeeds(AfterAll(ms, [], before), e) && e.token != ""
    ensures var b, id := AfterAll(ms, [], before + [e] + later), |AfterAll(ms, [], before)|;
      && id < |b|
      && Cancel(b, e.tenant, id, proof) ==
         if proof.None? || proof.value == e.token then (b[id := b[id].(status := "cancelled")], Ok(id))
         else (b, Err(BadToken))
  {
    CreatedToken(ms, before, e, later);
    hide AfterAll;
    hide Create;
  }

  /** The same holds for moving it, to a slot where no other booking stands. */
  lemma OnlyItsTokenReschedules(ms: Machines, before: seq<Call>, e: Call, later: seq<Call>, staff: string, at: int,
                                proof: Option<string>)
    requires e.DoCreate? && Succeeds(AfterAll(ms, [], before), e) && e.token != ""
    ensures var b, id := AfterAll(ms, [], before + [e] + later), |AfterAll(ms, [], before)|;
      && id < |b|
      && (proof.Some? && proof.value != e.token ==>
            Reschedule(b, e.tenant, id, staff, at, proof) == (b, Err(BadToken)))
      && (proof.None? || proof.value == e.token ==>
            var free := forall i | 0 <= i < |b| && i != id && b[i].archetype == "booking" ::
              b[i].status == "cancelled" || b[i].status == "no_show"
              || b[i].tenant != e.tenant || b[i].staff != Some(staff) || b[i].at != Some(at);
            Reschedule(b, e.tenant, id, staff, at, proof) ==
            if free then (b[id := b[id].(staff := Some(staff), at := Some(at), status := "rescheduled")], Ok(id))
            else (b, Err(Taken)))
  {
    CreatedToken(ms, before, e, later);
    hide AfterAll;
    hide Create;
  }

  lemma CreatedToken(ms: Machines, before: seq<Call>, e: Call, later: seq<Call>)
    requires e.DoCreate? && Succeeds(AfterAll(ms, [], before), e)
    ensures var b, id := AfterAll(ms, [], before + [e] + later), |AfterAll(ms, [], before)|;
      id < |b| && b[id].tenant == e.tenant && b[id].token == Some(e.token)
  {
    var b := AfterAll(ms, [], before);
    var c := After(ms, b, e);
    assert (before + [e])[..|before|] == before && AfterAll(ms, [], before + [e]) == c;
    RunsAfter(ms, [], before + [e], later);
    RunSameToken(ms, c, later);
    assert c[|b|] == NewBooking(e.tenant, e.staff, e.at, e.token, e.payBy);
    hide AfterAll;
  }

  /** A booking is accepted exactly when the professional offers the service and the tenant has no order scheduled,
      confirmed or in progress with that professional at that start; it is then scheduled, unpaid and last. */
  lemma CreationIff(b: Book, e: Call)
    requires e.DoCreate?
    ensures var free := forall i | 0 <= i < |b| ::
        b[i].tenant != e.tenant || b[i].staff != Some(e.staff) || b[i].at != Some(e.at)
        || (b[i].status != "scheduled" && b[i].status != "confirmed" && b[i].status != "in_progress");
      Create(b, e.tenant, e.staff, e.at, e.token, e.payBy, e.offered) ==
      if !free then (b, Err(Taken))
      else if !e.offered then (b, Err(NoProfessional))
      else (b + [Appointment(e.tenant, "booking", Some(e.staff), Some(e.at), "scheduled", Some(e.token), e.payBy,
                             Orders.PayPending, None)], Ok(|b|))
  {
  }

  /** A payment is submitted for an order of the tenant by PagoMovil, not yet paid, with a reference no other order of
      the tenant carries. */
  lemma SubmissionIff(b: Book, tenant: string, id: nat, ref: string)
    requires id < |b| && b[id].tenant == tenant
    ensures var unused := forall j | 0 <= j < |b| && j != id :: b[j].tenant != tenant || b[j].reference != Some(ref);
      Submit(b, tenant, id, ref) ==
      if b[id].payBy == Orders.Pagomovil && b[id].pay == Orders.PayPending && unused
      then
        var x := b[id].(status := "pending_verification", pay := Orders.PayInReview, reference := Some(ref));
        (b[id := x], Ok(id))
      else (b, Err(PaymentRefused))
  {
  }

  /** The sweep reminds exactly the scheduled and confirmed bookings that start in 23 to 25 hours, and leaves every
      other order as it was. */
  lemma RemindersAre(b: Book, now: int, i: nat)
    requires i < |b|
    ensures var soon := b[i].at.Some? && 23 * 3600000 <= b[i].at.value - now <= 25 * 3600000;
      && |Remind(b, now)| == |b|
      && Remind(b, now)[i] ==
         if b[i].archetype == "booking" && (b[i].status == "scheduled" || b[i].status == "confirmed") && soon
         then b[i].(status := "reminder_sent") else b[i]
  {
  }

  lemma WhoChanges(b: Book, now: int, i: nat)
    requires i < |b|
    ensures |Remind(b, now)| == |b| && (Remind(b, now)[i] != b[i] <==> Due(b[i], now))
  {
  }

  lemma {:induction false} DueCounted(b: Book, now: int)
    ensures DueCount(b, now) == |set i | 0 <= i < |b| && Due(b[i], now)|
  {
    hide Due;
    if b != [] {
      var n := |b| - 1;
      DueCounted(b[..n], now);
      var less := set i | 0 <= i < n && Due(b[..n][i], now);
      assert (set i | 0 <= i < |b| && Due(b[i], now)) == less + if Due(b[n], now) then {n} else {};
    }
  }

  /** It counts what it reminded. */
  lemma RemindersCounted(b: Book, now: int)
    ensures |Remind(b, now)| == |b| && DueCount(b, now) == |set i | 0 <= i < |b| && Remind(b, now)[i] != b[i]|
  {
    DueCounted(b, now);
    forall i | 0 <= i < |b|
      ensures |Remind(b, now)| == |b| && (Remind(b, now)[i] != b[i] <==> Due(b[i], now))
    {
      WhoChanges(b, now, i);
    }
    hide Due;
    assert (set i | 0 <= i < |b| && Due(b[i], now)) == set i | 0 <= i < |b| && Remind(b, now)[i] != b[i];
  }
}
