/** The day view of one professional, read off the opening hours, the appointments and the two zones. */
module DayView {
  import opened Prelude
  import opened BookingSlots

  lemma {:induction false} FoundIff(staff: seq<Staff>, tenant: string, id: string)
    ensures FindStaff(staff, tenant, id).None? <==> forall s | s in staff :: !(s.id == id && s.tenant == tenant)
  {
    if staff != [] {
      FoundIff(staff[1..], tenant, id);
      assert forall s :: s in staff <==> s == staff[0] || s in staff[1..];
    }
  }

  /** The view is refused exactly for a professional the tenant does not have, and for a malformed date. */
  lemma ViewRefused(db: Database, q: Query, id: string)
    requires q.duration > 0
    ensures View(db, q, id) == Err(StaffNotFound) <==> forall s | s in db.staff :: !(s.id == id && s.tenant == q.tenant)
    ensures View(db, q, id) == Err(BadDate) <==>
      (exists s :: s in db.staff && s.id == id && s.tenant == q.tenant) && q.date == Malformed
  {
    FoundIff(db.staff, q.tenant, id);
    hide DayOf;
    hide FindStaff;
  }

  /** Local milliseconds of an instant, in a zone that is so many minutes behind UTC. */
  function Local(at: int, zone: int): int {
    at - zone * 60000
  }

  /** On the calendar day, seen from the zone; the last second of the day does not count. */
  ghost predicate OnDay(at: int, zone: int, day: int) {
    Local(at, zone) / 86400000 == day && Local(at, zone) % 86400000 <= 86399000
  }

  lemma WindowIsDay(at: int, zone: int, day: int)
    ensures WindowStart(day, zone) <= at <= WindowEnd(day, zone) <==> OnDay(at, zone, day)
  {
    var d, r := Local(at, zone) / DAY, Local(at, zone) % DAY;
    assert Local(at, zone) == d * DAY + r;
  }

  /** An appointment of the professional that was not called off. */
  ghost predicate Booked(db: Database, tenant: string, staff: string, at: int) {
    exists b :: b in db.bookings && b.tenant == tenant && b.staff == staff && b.archetype == "booking"
      && b.status != "cancelled" && b.status != "no_show" && b.at == at
  }

  lemma CountFits(start: int, end: int, step: int, i: nat)
    requires step > 0
    ensures i < SlotCount(start, end, step) <==> start + (i + 1) * step <= end
  {
    var n, d := SlotCount(start, end, step), end - start;
    var k: int := i + 1;
    if d >= step {
      assert n * step <= d < n * step + step;
      if k <= n {
        StepsGrow(step, k, n);
      } else {
        StepsGrow(step, n + 1, k);
      }
    } else {
      StepsGrow(step, 1, k);
    }
    assert (i + 1) * step == k * step;
  }

  /** Slot i ends by closing time. */
  ghost predicate Fits(open: int, close: int, duration: int, i: nat) {
    open + (i + 1) * duration <= close
  }

  lemma SlotTimes(day: int, open: int, close: int, zone: int, duration: int, i: nat)
    requires duration > 0
    ensures Local(SlotStart(InstantOf(day, open, zone), duration * MINUTE, i), zone) ==
      day * 86400000 + (open + i * duration) * 60000
    ensures i < SlotCount(InstantOf(day, open, zone), InstantOf(day, close, zone), duration * MINUTE)
            <==> Fits(open, close, duration, i)
  {
    CountFits(InstantOf(day, open, zone), InstantOf(day, close, zone), duration * MINUTE, i);
    assert i * (duration * MINUTE) == (i * duration) * MINUTE;
    assert (i + 1) * (duration * MINUTE) == ((i + 1) * duration) * MINUTE;
  }

  lemma TakenIs(db: Database, tenant: string, staff: string, serverZone: int, day: int, at: int)
    ensures at in Taken(db.bookings, tenant, staff, WindowStart(day, serverZone), WindowEnd(day, serverZone))
            <==> Booked(db, tenant, staff, at) && OnDay(at, serverZone, day)
  {
    WindowIsDay(at, serverZone, day);
    hide OnDay;
  }

  /** On a day worked, the slots are the steps of the duration from opening to closing in the tenant's zone, as many as
      fit; one is shown taken exactly when an appointment starts there on that calendar day of the server. On a day
      off, or with hours that are no times, there are none. */
  lemma ViewIs(db: Database, q: Query, id: string, s: Staff, day: int)
    requires q.duration > 0 && q.date == Day(day) && FindStaff(db.staff, q.tenant, id) == Some(s)
    ensures View(db, q, id).Ok?
    ensures var slots := View(db, q, id).value;
      var w := Weekday(day);
      if w !in s.schedule || !s.schedule[w].enabled || day in s.blocked
         || s.schedule[w].open.None? || s.schedule[w].close.None?
      then slots == []
      else
        var open, close := s.schedule[w].open.value, s.schedule[w].close.value;
        && (forall i: nat :: i < |slots| <==> Fits(open, close, q.duration, i))
        && (forall i | 0 <= i < |slots| ::
              && Local(slots[i].at, q.zone) == day * 86400000 + (open + i * q.duration) * 60000
              && (slots[i].available <==>
                    !(Booked(db, q.tenant, id, slots[i].at) && OnDay(slots[i].at, q.serverZone, day))))
  {
    FoundIsAsked(db.staff, q.tenant, id);
    var w := Weekday(day);
    if w in s.schedule && s.schedule[w].enabled && day !in s.blocked
       && s.schedule[w].open.Some? && s.schedule[w].close.Some?
    {
      WorkedView(db, q, s, day, s.schedule[w].open.value, s.schedule[w].close.value);
    }
    hide DaySlots;
    hide Weekday;
    hide OnDay;
    hide Booked;
  }

  lemma WorkedView(db: Database, q: Query, s: Staff, day: int, open: int, close: int)
    requires q.duration > 0 && 0 <= open <= 1440 && 0 <= close <= 1440
    ensures var slots := DaySlots(InstantOf(day, open, q.zone), InstantOf(day, close, q.zone), q.duration * MINUTE,
                                  Taken(db.bookings, q.tenant, s.id, WindowStart(day, q.serverZone),
                                        WindowEnd(day, q.serverZone)));
      && (forall i: nat :: i < |slots| <==> Fits(open, close, q.duration, i))
      && (forall i | 0 <= i < |slots| ::
            && Local(slots[i].at, q.zone) == day * 86400000 + (open + i * q.duration) * 60000
            && (slots[i].available <==>
                  !(Booked(db, q.tenant, s.id, slots[i].at) && OnDay(slots[i].at, q.serverZone, day))))
  {
    var start, end, step := InstantOf(day, open, q.zone), InstantOf(day, close, q.zone), q.duration * MINUTE;
    var taken := Taken(db.bookings, q.tenant, s.id, WindowStart(day, q.serverZone), WindowEnd(day, q.serverZone));
    var slots := DaySlots(start, end, step, taken);
    hide Fits;
    hide OnDay;
    hide Booked;
    hide Taken;
    hide InstantOf;
    hide Local;
    hide WindowStart;
    hide WindowEnd;
    hide SlotCount;
    hide SlotStart;
    assert |slots| == SlotCount(start, end, step);
    forall i: nat
      ensures i < |slots| <==> Fits(open, close, q.duration, i)
    {
      SlotTimes(day, open, close, q.zone, q.duration, i);
    }
    forall i | 0 <= i < |slots|
      ensures Local(slots[i].at, q.zone) == day * 86400000 + (open + i * q.duration) * 60000
      ensures slots[i].available <==>
        !(Booked(db, q.tenant, s.id, slots[i].at) && OnDay(slots[i].at, q.serverZone, day))
    {
      SlotTimes(day, open, close, q.zone, q.duration, i);
      assert slots[i] == SlotAt(start, step, taken, i);
      TakenIs(db, q.tenant, s.id, q.serverZone, day, slots[i].at);
    }
  }

  /** A slot is labelled with its minute of the day in UTC. */
  lemma LabelIs(start: int, end: int, step: int, taken: set<int>, i: nat)
    requires step > 0 && i < |DaySlots(start, end, step, taken)|
    ensures var slot := DaySlots(start, end, step, taken)[i];
      slot.minute < 1440 && slot.at % 86400000 / 60000 == slot.minute
  {
    var at := DaySlots(start, end, step, taken)[i].at;
    var days, m, rest := at / DAY, at / MINUTE, at % MINUTE;
    assert at == m * MINUTE + rest;
    MinutesOfDay(at);
  }

  lemma MinutesOfDay(at: int)
    ensures at % 86400000 / 60000 == at / 60000 % 1440
  {
    var m, rest := at / 60000, at % 60000;
    var d, r := m / 1440, m % 1440;
    assert at == 86400000 * d + (60000 * r + rest);
    DayPart(d, 60000 * r + rest);
    MinutePart(r, rest);
  }

  lemma DayPart(d: int, part: int)
    requires 0 <= part < 86400000
    ensures (86400000 * d + part) % 86400000 == part
  {
  }

  lemma MinutePart(r: int, rest: int)
    requires 0 <= rest < 60000
    ensures (60000 * r + rest) / 60000 == r
  {
  }
}
