/** The three views of free appointment slots: one professional's day, anybody's day, and the month. */
module BookingSlots {
  import opened Prelude

  // Instants are milliseconds since 1970 UTC, days count from 1970-01-01, minutes from midnight.
  const MINUTE := 60000
  const DAY := 86400000

  type MinuteOfDay = m: int | 0 <= m <= 1440

  // None stands for text that is not a time of day: the Date it gives is not a number.
  datatype Hours = Hours(enabled: bool, open: Option<MinuteOfDay>, close: Option<MinuteOfDay>)

  // `schedule` maps 0..6, Sunday first, to opening hours.
  datatype Staff = Staff(id: string, tenant: string, active: bool, services: set<string>, schedule: map<int, Hours>,
                         blocked: set<int>)

  datatype Booking = Booking(tenant: string, staff: string, archetype: string, status: string, at: int)

  datatype Database = Database(staff: seq<Staff>, bookings: seq<Booking>)

  // The date text: not YYYY-MM-DD, or of that form but no day, or a day.
  datatype DateText = Malformed | NoSuchDay | Day(day: int)

  // Zone offsets are minutes to add to local time to get UTC; the server has its own.
  datatype Query = Query(tenant: string, date: DateText, duration: int, zone: int, serverZone: int)

  datatype BookingError = StaffNotFound | BadDate

  datatype Slot = Slot(minute: nat, at: int, available: bool)

  // --- one professional's day ----------------------------------------------------------

  function Weekday(day: int): int {
    (day + 4) % 7
  }

  // _formatTime: hours and minutes of the instant, in UTC.
  function MinuteLabel(at: int): (m: nat)
    ensures m < 1440
  {
    at / MINUTE % 1440
  }

  function Digit(d: nat): (c: char)
    requires d < 10
    ensures c as int == 48 + d
  {
    "0123456789"[d]
  }

  // "HH:MM", as it is shown and compared.
  function TimeText(m: nat): string
    requires m < 1440
  {
    [Digit(m / 600), Digit(m / 60 % 10), ':', Digit(m % 60 / 10), Digit(m % 60 % 10)]
  }

  // Character order of two texts of the same length.
  predicate TextBefore(a: string, b: string)
    requires |a| == |b|
  {
    a != [] && (a[0] < b[0] || (a[0] == b[0] && TextBefore(a[1..], b[1..])))
  }

  lemma FirstCharacter(a: string, b: string)
    requires |a| == |b| > 0
    ensures TextBefore(a, b) <==> a[0] < b[0] || (a[0] == b[0] && TextBefore(a[1..], b[1..]))
    ensures |a| == 1 ==> (TextBefore(a, b) <==> a[0] < b[0])
  {
  }

  lemma FiveCharacters(a: string, b: string)
    requires |a| == |b| == 5 && a[2] == b[2]
    ensures TextBefore(a, b) <==>
      a[0] < b[0] || (a[0] == b[0] && (a[1] < b[1] || (a[1] == b[1] && (a[3] < b[3] || (a[3] == b[3] && a[4] < b[4])))))
  {
    var a1, a2, a3, a4 := a[1..], a[2..], a[3..], a[4..];
    var b1, b2, b3, b4 := b[1..], b[2..], b[3..], b[4..];
    assert a1[1..] == a2 && a2[1..] == a3 && a3[1..] == a4;
    assert b1[1..] == b2 && b2[1..] == b3 && b3[1..] == b4;
    hide TextBefore;
    FirstCharacter(a, b);
    FirstCharacter(a1, b1);
    FirstCharacter(a2, b2);
    FirstCharacter(a3, b3);
    FirstCharacter(a4, b4);
  }

  // Four digits in mixed base compare like the number they write.
  lemma DigitOrder(a: nat, b: nat, c: nat, d: nat, e: nat, f: nat, g: nat, h: nat)
    requires b < 10 && c < 6 && d < 10 && f < 10 && g < 6 && h < 10
    ensures 600 * a + 60 * b + 10 * c + d < 600 * e + 60 * f + 10 * g + h
            <==> a < e || (a == e && (b < f || (b == f && (c < g || (c == g && d < h)))))
    ensures 600 * a + 60 * b + 10 * c + d == 600 * e + 60 * f + 10 * g + h <==> a == e && b == f && c == g && d == h
  {
  }

  lemma FourDigits(m: nat)
    requires m < 1440
    ensures m == 600 * (m / 600) + 60 * (m / 60 % 10) + 10 * (m % 60 / 10) + m % 60 % 10
    ensures m / 60 % 10 < 10 && m % 60 / 10 < 6 && m % 60 % 10 < 10
  {
  }

  /** Showing minutes as text keeps their order, so sorting by text is sorting by time, and equal texts
      are equal minutes. */
  lemma TimeTextOrdered(m: nat, n: nat)
    requires m < 1440 && n < 1440
    ensures TextBefore(TimeText(m), TimeText(n)) <==> m < n
    ensures TimeText(m) == TimeText(n) <==> m == n
  {
    var a, b := TimeText(m), TimeText(n);
    FiveCharacters(a, b);
    FourDigits(m);
    FourDigits(n);
    DigitOrder(m / 600, m / 60 % 10, m % 60 / 10, m % 60 % 10, n / 600, n / 60 % 10, n % 60 / 10, n % 60 % 10);
    hide TextBefore;
    if a == b {
      assert a[0] == b[0] && a[1] == b[1] && a[3] == b[3] && a[4] == b[4];
    }
  }

  function SlotCount(start: int, end: int, step: int): (n: nat)
    requires step > 0
  {
    if end - start < step then 0 else (end - start) / step
  }

  function SlotStart(start: int, step: int, i: nat): int {
    start + i * step
  }

  function SlotAt(start: int, step: int, taken: set<int>, i: nat): Slot {
    var at := SlotStart(start, step, i);
    Slot(MinuteLabel(at), at, at !in taken)
  }

  function DaySlots(start: int, end: int, step: int, taken: set<int>): seq<Slot>
    requires step > 0
  {
    seq(SlotCount(start, end, step), i requires 0 <= i => SlotAt(start, step, taken, i))
  }

  lemma NextSlot(start: int, step: int, i: nat)
    ensures SlotStart(start, step, i + 1) == SlotStart(start, step, i) + step
  {
  }

  // Where the loop stops: the count is the quotient.
  lemma CountIs(start: int, end: int, step: int, n: nat)
    requires step > 0
    requires n == 0 || SlotStart(start, step, n) <= end
    requires SlotStart(start, step, n) + step > end
    ensures n == SlotCount(start, end, step)
  {
    if n > 0 {
      var d := end - start;
      assert n * step <= d < n * step + step;
      Quotient(d, step, n);
      StepsGrow(step, 1, n);
    }
  }

  lemma Quotient(d: int, step: int, n: nat)
    requires step > 0 && n * step <= d < n * step + step
    ensures d / step == n
  {
    var q := d / step;
    assert q * step <= d < q * step + step;
    if q < n {
      StepsGrow(step, q + 1, n);
    } else if n < q {
      StepsGrow(step, n + 1, q);
    }
  }

  lemma {:induction false} StepsGrow(step: int, i: int, j: int)
    requires step > 0 && i <= j
    ensures i * step <= j * step
    ensures i < j ==> i * step + step <= j * step
    decreases j - i
  {
    if i < j {
      StepsGrow(step, i, j - 1);
      assert j * step == (j - 1) * step + step;
    }
  }

  /** The loop of getAvailableSlots. */
  method GenerateSlots(start: int, end: int, step: int, taken: set<int>) returns (slots: seq<Slot>)
    requires step > 0
    ensures slots == DaySlots(start, end, step, taken)
  {
    slots := [];
    var current := start;
    while current + step <= end
      invariant current == SlotStart(start, step, |slots|)
      invariant |slots| > 0 ==> current <= end
      invariant forall i | 0 <= i < |slots| :: slots[i] == SlotAt(start, step, taken, i)
      decreases end - current
    {
      NextSlot(start, step, |slots|);
      slots := slots + [Slot(MinuteLabel(current), current, current !in taken)];
      current := current + step;
    }
    CountIs(start, end, step, |slots|);
  }

  lemma LastFits(start: int, end: int, step: int)
    requires step > 0 && SlotCount(start, end, step) > 0
    ensures var n := SlotCount(start, end, step); n == (end - start) / step && n * step <= end - start < n * step + step
  {
  }

  lemma SlotPlaces(start: int, end: int, step: int, n: nat, i: nat)
    requires step > 0 && i < n && n * step <= end - start < n * step + step
    ensures start <= SlotStart(start, step, i) && SlotStart(start, step, i) + step <= end
    ensures i + 1 == n ==> SlotStart(start, step, i) + 2 * step > end
  {
    StepsGrow(step, 0, i);
    StepsGrow(step, i + 1, n);
    NextSlot(start, step, i);
    assert SlotStart(start, step, i + 1) == start + (i + 1) * step;
  }

  /** The slots of a day lie back to back inside the opening hours, and one more would not fit. */
  lemma BackToBack(start: int, end: int, step: int, taken: set<int>, i: nat)
    requires step > 0 && i < |DaySlots(start, end, step, taken)|
    ensures var s := DaySlots(start, end, step, taken);
      && s[0].at == start && start <= s[i].at && s[i].at + step <= end
      && (if i + 1 < |s| then s[i + 1].at == s[i].at + step else s[i].at + 2 * step > end)
      && |s| == (end - start) / step
  {
    var s, n := DaySlots(start, end, step, taken), SlotCount(start, end, step);
    assert |s| == n && s[0].at == SlotStart(start, step, 0) == start && s[i].at == SlotStart(start, step, i);
    assert i + 1 < n ==> s[i + 1].at == SlotStart(start, step, i + 1);
    LastFits(start, end, step);
    SlotPlaces(start, end, step, n, i);
    NextSlot(start, step, i);
    hide SlotStart;
    hide DaySlots;
    hide SlotCount;
  }

  // --- which bookings the view sees ---------------------------------------------------------

  // A booking that was not called off.
  predicate StandingBooking(archetype: string, status: string) {
    archetype == "booking" && status != "cancelled" && status != "no_show"
  }

  predicate OccupiedBy(b: Booking, tenant: string, staff: string) {
    b.tenant == tenant && b.staff == staff && StandingBooking(b.archetype, b.status)
  }

  function Taken(bookings: seq<Booking>, tenant: string, staff: string, first: int, last: int): set<int> {
    set b | b in bookings && OccupiedBy(b, tenant, staff) && first <= b.at <= last :: b.at
  }

  // `date`T00:00:00 and `date`T23:59:59, read in the zone of the server.
  function WindowStart(day: int, serverZone: int): int {
    day * DAY + serverZone * MINUTE
  }

  function WindowEnd(day: int, serverZone: int): int {
    WindowStart(day, serverZone) + DAY - 1000
  }

  // _parseTimeInTz: a time of day in the zone of the tenant.
  function InstantOf(day: int, minute: int, zone: int): int {
    day * DAY + (minute + zone) * MINUTE
  }

  function FindStaff(staff: seq<Staff>, tenant: string, id: string): Option<Staff> {
    if staff == [] then None
    else if staff[0].id == id && staff[0].tenant == tenant then Some(staff[0])
    else FindStaff(staff[1..], tenant, id)
  }

  // The hours worked on a day; None when the day is off.
  function WorkedHours(s: Staff, day: int): Option<Hours> {
    if Weekday(day) in s.schedule && s.schedule[Weekday(day)].enabled && day !in s.blocked
    then Some(s.schedule[Weekday(day)]) else None
  }

  function DayOf(db: Database, q: Query, s: Staff, day: int): seq<Slot>
    requires q.duration > 0
  {
    var h := WorkedHours(s, day);
    if h.None? || h.value.open.None? || h.value.close.None? then []
    else DaySlots(InstantOf(day, h.value.open.value, q.zone), InstantOf(day, h.value.close.value, q.zone),
                  q.duration * MINUTE,
                  Taken(db.bookings, q.tenant, s.id, WindowStart(day, q.serverZone), WindowEnd(day, q.serverZone)))
  }

  function View(db: Database, q: Query, id: string): Result<seq<Slot>, BookingError>
    requires q.duration > 0
  {
    var s := FindStaff(db.staff, q.tenant, id);
    if s.None? then Err(StaffNotFound)
    else match q.date
      case Malformed => Err(BadDate)
      case NoSuchDay => Ok([])
      case Day(day) => Ok(DayOf(db, q, s.value, day))
  }

  method GetAvailableSlots(db: Database, q: Query, id: string) returns (r: Result<seq<Slot>, BookingError>)
    requires q.duration > 0
    ensures r == View(db, q, id)
  {
    var found := FindStaff(db.staff, q.tenant, id);
    if found.None? {
      return Err(StaffNotFound);
    }
    var staff := found.value;
    match q.date
    case Malformed =>
      r := Err(BadDate);
    case NoSuchDay =>
      r := Ok([]);
    case Day(day) =>
      if Weekday(day) !in staff.schedule || !staff.schedule[Weekday(day)].enabled || day in staff.blocked {
        return Ok([]);
      }
      var hours := staff.schedule[Weekday(day)];
      if hours.open.None? || hours.close.None? {
        return Ok([]);
      }
      FoundIsAsked(db.staff, q.tenant, id);
      var dayStart := day * DAY + q.serverZone * MINUTE;
      var dayEnd := dayStart + DAY - 1000;
      var taken := Taken(db.bookings, q.tenant, id, dayStart, dayEnd);
      var slots := GenerateSlots(
        InstantOf(day, hours.open.value, q.zone), InstantOf(day, hours.close.value, q.zone),
        q.duration * MINUTE, taken);
      r := Ok(slots);
  }

  lemma {:induction false} FoundIsAsked(staff: seq<Staff>, tenant: string, id: string)
    ensures FindStaff(staff, tenant, id).Some? ==>
      var s := FindStaff(staff, tenant, id).value; s in staff && s.id == id && s.tenant == tenant
  {
    if staff != [] {
      FoundIsAsked(staff[1..], tenant, id);
    }
  }

  // --- when a slot shown free is free -----------------------------------------------------------

  ghost predicate BookedAt(bookings: seq<Booking>, tenant: string, staff: string, at: int) {
    exists b :: b in bookings && OccupiedBy(b, tenant, staff) && b.at == at
  }

  /** What the availability of a slot says: no appointment starts there among those of the day's window. */
  lemma FreeMeans(db: Database, q: Query, s: Staff, day: int, i: nat)
    requires q.duration > 0 && i < |DayOf(db, q, s, day)|
    ensures var slot := DayOf(db, q, s, day)[i];
      !slot.available <==> BookedAt(db.bookings, q.tenant, s.id, slot.at)
                           && WindowStart(day, q.serverZone) <= slot.at <= WindowEnd(day, q.serverZone)
  {
  }

  ghost predicate Truthful(db: Database, q: Query, s: Staff, day: int)
    requires q.duration > 0
  {
    forall i | 0 <= i < |DayOf(db, q, s, day)| ::
      DayOf(db, q, s, day)[i].available <==> !BookedAt(db.bookings, q.tenant, s.id, DayOf(db, q, s, day)[i].at)
  }

  // The opening hours of the day, seen from the server, stay inside one calendar day of the server.
  predicate InsideWindow(q: Query, s: Staff, day: int)
    requires q.duration > 0
  {
    var h := WorkedHours(s, day);
    h.Some? && h.value.open.Some? && h.value.close.Some? ==>
      var start, step := InstantOf(day, h.value.open.value, q.zone), q.duration * MINUTE;
      var n := SlotCount(start, InstantOf(day, h.value.close.value, q.zone), step);
      n > 0 ==> WindowStart(day, q.serverZone) <= start && SlotStart(start, step, n - 1) <= WindowEnd(day, q.serverZone)
  }

  lemma SlotsDoNotDepend(db: Database, other: Database, q: Query, s: Staff, day: int)
    requires q.duration > 0
    ensures |DayOf(db, q, s, day)| == |DayOf(other, q, s, day)|
    ensures forall i | 0 <= i < |DayOf(db, q, s, day)| :: DayOf(db, q, s, day)[i].at == DayOf(other, q, s, day)[i].at
  {
  }

  lemma InWindow(db: Database, q: Query, s: Staff, day: int, i: nat)
    requires q.duration > 0 && InsideWindow(q, s, day) && i < |DayOf(db, q, s, day)|
    ensures WindowStart(day, q.serverZone) <= DayOf(db, q, s, day)[i].at <= WindowEnd(day, q.serverZone)
  {
    var n := |DayOf(db, q, s, day)|;
    StepsGrow(q.duration * MINUTE, 0, i);
    StepsGrow(q.duration * MINUTE, i, n - 1);
  }

  // One appointment at a slot the window misses, and nothing else.
  lemma MissedBooking(q: Query, s: Staff, day: int, i: nat)
    requires q.duration > 0 && i < |DayOf(Database([], []), q, s, day)|
    requires var at := DayOf(Database([], []), q, s, day)[i].at;
      !(WindowStart(day, q.serverZone) <= at <= WindowEnd(day, q.serverZone))
    ensures exists db :: !Truthful(db, q, s, day)
  {
    var at := DayOf(Database([], []), q, s, day)[i].at;
    var b := Booking(q.tenant, s.id, "booking", "scheduled", at);
    var db := Database([], [b]);
    SlotsDoNotDepend(Database([], []), db, q, s, day);
    FreeMeans(db, q, s, day, i);
    assert b in db.bookings;
    assert BookedAt(db.bookings, q.tenant, s.id, at);
    assert !Truthful(db, q, s, day);
  }

  /** The day view tells free from booked for every set of appointments exactly when its slots lie inside
      the server's calendar day of that date. */
  lemma TruthfulIff(q: Query, s: Staff, day: int)
    requires q.duration > 0
    ensures (forall db :: Truthful(db, q, s, day)) <==> InsideWindow(q, s, day)
  {
    if InsideWindow(q, s, day) {
      forall db
        ensures Truthful(db, q, s, day)
      {
        forall i | 0 <= i < |DayOf(db, q, s, day)|
          ensures DayOf(db, q, s, day)[i].available
            <==> !BookedAt(db.bookings, q.tenant, s.id, DayOf(db, q, s, day)[i].at)
        {
          FreeMeans(db, q, s, day, i);
          InWindow(db, q, s, day, i);
        }
      }
    } else {
      var slots := DayOf(Database([], []), q, s, day);
      var n := |slots|;
      if slots[0].at < WindowStart(day, q.serverZone) || slots[0].at > WindowEnd(day, q.serverZone) {
        MissedBooking(q, s, day, 0);
      } else {
        StepsGrow(q.duration * MINUTE, 0, n - 1);
        MissedBooking(q, s, day, n - 1);
      }
    }
  }

  /** Caracas, a server in UTC, a professional working until 21:00: the 20:00 slot starts at midnight UTC,
      the appointment there is not fetched, and the slot is shown free. */
  lemma EveningSlotShownFree()
    ensures exists db: Database, q: Query, s: Staff, day: int ::
      q.duration == 60 && q.zone == 240 && q.serverZone == 0 && !Truthful(db, q, s, day)
  {
    var day := 20000;
    var hours := Hours(true, Some(1200), Some(1260));
    var s := Staff("ana", "t", true, {}, map[Weekday(day) := hours], {});
    var q := Query("t", Day(day), 60, 240, 0);
    assert WorkedHours(s, day) == Some(hours);
    assert InstantOf(day, 1200, 240) == (day + 1) * DAY;
    assert SlotCount(InstantOf(day, 1200, 240), InstantOf(day, 1260, 240), 3600000) == 1;
    MissedBooking(q, s, day, 0);
  }
}
