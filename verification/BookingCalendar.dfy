/** Anybody's slots of a day and the days of a month, built from the single views, and their agreement. */
module BookingCalendar {
  import opened Prelude
  import opened BookingSlots

  // assignedStaffId is the first professional free at that time.
  datatype Cell = Cell(available: bool, whom: Option<string>)

  datatype Entry = Entry(minute: nat, cell: Cell)

  // Active professionals, and when a service is given those who offer it.
  predicate Offers(s: Staff, tenant: string, service: Option<string>) {
    s.tenant == tenant && s.active && (service.Some? ==> service.value in s.services)
  }

  function StaffForService(staff: seq<Staff>, tenant: string, service: Option<string>): seq<string> {
    if staff == [] then []
    else
      (if Offers(staff[0], tenant, service) then [staff[0].id] else []) + StaffForService(staff[1..], tenant, service)
  }

  /** The union covers exactly the tenant's active professionals, those who offer the service when one is asked for. */
  lemma {:induction false} StaffAre(staff: seq<Staff>, tenant: string, service: Option<string>, id: string)
    ensures id in StaffForService(staff, tenant, service) <==>
      exists s ::
        s in staff && s.id == id && s.tenant == tenant && s.active && (service.None? || service.value in s.services)
  {
    if staff != [] {
      StaffAre(staff[1..], tenant, service, id);
      assert forall s :: s in staff <==> s == staff[0] || s in staff[1..];
    }
  }

  // A professional whose view fails is skipped.
  function SlotsOf(db: Database, q: Query, id: string): seq<Slot>
    requires q.duration > 0
  {
    var r := View(db, q, id);
    if r.Ok? then r.value else []
  }

  predicate Lists(slots: seq<Slot>, minute: nat) {
    exists i | 0 <= i < |slots| :: slots[i].minute == minute
  }

  predicate FreeAt(slots: seq<Slot>, minute: nat) {
    exists i | 0 <= i < |slots| :: slots[i].minute == minute && slots[i].available
  }

  predicate AnyLists(db: Database, q: Query, ids: seq<string>, minute: nat)
    requires q.duration > 0
  {
    exists i | 0 <= i < |ids| :: Lists(SlotsOf(db, q, ids[i]), minute)
  }

  /** The first professional, in the order of the list, who is free at a time. */
  function FirstFree(db: Database, q: Query, ids: seq<string>, minute: nat): (id: Option<string>)
    requires q.duration > 0
    ensures id.Some? <==> exists i | 0 <= i < |ids| :: FreeAt(SlotsOf(db, q, ids[i]), minute)
    ensures id.Some? ==> exists i | 0 <= i < |ids| ::
      ids[i] == id.value && FreeAt(SlotsOf(db, q, ids[i]), minute)
      && forall k | 0 <= k < i :: !FreeAt(SlotsOf(db, q, ids[k]), minute)
  {
    if ids == [] then None
    else
      var n := |ids| - 1;
      var before := FirstFree(db, q, ids[..n], minute);
      assert before.Some? ==> exists i | 0 <= i < |ids[..n]| :: FreeAt(SlotsOf(db, q, ids[..n][i]), minute);
      assert forall i | 0 <= i < n :: ids[..n][i] == ids[i];
      if before.Some? then before
      else if FreeAt(SlotsOf(db, q, ids[n]), minute) then Some(ids[n])
      else None
  }

  ghost predicate Increasing(es: seq<Entry>) {
    forall i, j | 0 <= i < j < |es| :: es[i].minute < es[j].minute
  }

  ghost predicate Times(es: seq<Entry>, minute: nat) {
    exists e :: e in es && e.minute == minute
  }

  // Each time any professional works, once, in order; free exactly when somebody is, with the first such.
  ghost predicate IsUnion(es: seq<Entry>, db: Database, q: Query, ids: seq<string>)
    requires q.duration > 0
  {
    && Increasing(es)
    && (forall m: nat :: Times(es, m) <==> AnyLists(db, q, ids, m))
    && (forall e | e in es ::
         e.cell.whom == FirstFree(db, q, ids, e.minute) && (e.cell.available <==> e.cell.whom.Some?))
  }

  // --- building the union ------------------------------------------------------------------

  // What the map holds at a time, with the first i professionals done and the first j slots of the next.
  ghost predicate CellOk(m: map<nat, Cell>, db: Database, q: Query, ids: seq<string>, i: nat, slots: seq<Slot>,
                         minute: nat)
    requires q.duration > 0 && i <= |ids|
  {
    var before := FirstFree(db, q, ids[..i], minute);
    && (minute in m <==> AnyLists(db, q, ids[..i], minute) || Lists(slots, minute))
    && (minute in m ==>
          && (m[minute].available <==> m[minute].whom.Some?)
          && m[minute].whom == if before.Some? then before
                                   else if i < |ids| && FreeAt(slots, minute) then Some(ids[i]) else None)
  }

  lemma OneSlotMore(m: map<nat, Cell>, db: Database, q: Query, ids: seq<string>, i: nat, slots: seq<Slot>, s: Slot,
                    minute: nat)
    requires q.duration > 0 && i < |ids| && CellOk(m, db, q, ids, i, slots, minute)
    ensures CellOk(Added(m, s, ids[i]), db, q, ids, i, slots + [s], minute)
  {
    var more := slots + [s];
    assert more[|slots|] == s;
    assert forall k | 0 <= k < |slots| :: more[k] == slots[k];
    assert Lists(more, minute) <==> Lists(slots, minute) || s.minute == minute;
    assert FreeAt(more, minute) <==> FreeAt(slots, minute) || (s.minute == minute && s.available);
    hide FirstFree;
    hide AnyLists;
    hide Lists;
    hide FreeAt;
    FreeSlotsListed(slots, minute);
    FreeListed(db, q, ids[..i], minute);
  }

  lemma FreeSlotsListed(slots: seq<Slot>, minute: nat)
    ensures FreeAt(slots, minute) ==> Lists(slots, minute)
  {
  }

  lemma FreeListed(db: Database, q: Query, ids: seq<string>, minute: nat)
    requires q.duration > 0
    ensures FirstFree(db, q, ids, minute).Some? ==> AnyLists(db, q, ids, minute)
  {
    if FirstFree(db, q, ids, minute).Some? {
      var i :| 0 <= i < |ids| && FreeAt(SlotsOf(db, q, ids[i]), minute);
      assert Lists(SlotsOf(db, q, ids[i]), minute);
    }
  }

  function Added(m: map<nat, Cell>, s: Slot, id: string): map<nat, Cell> {
    if s.minute !in m then m[s.minute := Cell(s.available, if s.available then Some(id) else None)]
    else if !m[s.minute].available && s.available then m[s.minute := Cell(true, Some(id))]
    else m
  }

  lemma OneProfessionalMore(m: map<nat, Cell>, db: Database, q: Query, ids: seq<string>, i: nat, minute: nat)
    requires q.duration > 0 && i < |ids| && CellOk(m, db, q, ids, i, SlotsOf(db, q, ids[i]), minute)
    ensures CellOk(m, db, q, ids, i + 1, [], minute)
  {
    var next := ids[..i + 1];
    assert next[..i] == ids[..i] && next[i] == ids[i] && |next| == i + 1;
    assert forall k | 0 <= k < i :: next[k] == ids[..i][k];
    assert AnyLists(db, q, next, minute)
      <==> AnyLists(db, q, ids[..i], minute) || Lists(SlotsOf(db, q, ids[i]), minute);
    assert !Lists([], minute);
  }

  ghost predicate MapOk(m: map<nat, Cell>, db: Database, q: Query, ids: seq<string>, i: nat, slots: seq<Slot>)
    requires q.duration > 0 && i <= |ids|
  {
    forall minute: nat :: CellOk(m, db, q, ids, i, slots, minute)
  }

  lemma NothingSeen(db: Database, q: Query, ids: seq<string>)
    requires q.duration > 0
    ensures MapOk(map[], db, q, ids, 0, [])
  {
    forall minute: nat
      ensures CellOk(map[], db, q, ids, 0, [], minute)
    {
      assert ids[..0] == [];
    }
  }

  lemma ProfessionalDone(m: map<nat, Cell>, db: Database, q: Query, ids: seq<string>, i: nat)
    requires q.duration > 0 && i < |ids| && MapOk(m, db, q, ids, i, SlotsOf(db, q, ids[i]))
    ensures MapOk(m, db, q, ids, i + 1, [])
  {
    var next := i + 1;
    forall minute: nat
      ensures CellOk(m, db, q, ids, next, [], minute)
    {
      OneProfessionalMore(m, db, q, ids, i, minute);
    }
  }

  lemma EverybodyDone(m: map<nat, Cell>, db: Database, q: Query, ids: seq<string>, es: seq<Entry>)
    requires q.duration > 0 && MapOk(m, db, q, ids, |ids|, [])
    requires Increasing(es) && forall e :: e in es <==> e.minute in m && m[e.minute] == e.cell
    ensures IsUnion(es, db, q, ids)
  {
    assert ids[..|ids|] == ids;
    forall minute: nat
      ensures Times(es, minute) <==> AnyLists(db, q, ids, minute)
      ensures minute in m ==> m[minute].whom == FirstFree(db, q, ids, minute)
      ensures minute in m ==> (m[minute].available <==> m[minute].whom.Some?)
    {
      assert CellOk(m, db, q, ids, |ids|, [], minute);
      assert !Lists([], minute);
      if minute in m {
        assert Entry(minute, m[minute]) in es;
      }
    }
  }

  method AnySlots(db: Database, q: Query, service: Option<string>) returns (entries: seq<Entry>)
    requires q.duration > 0
    ensures IsUnion(entries, db, q, StaffForService(db.staff, q.tenant, service))
  {
    hide MapOk;
    hide View;
    hide IsUnion;
    hide StaffForService;
    var ids := StaffForService(db.staff, q.tenant, service);
    var slotMap: map<nat, Cell> := map[];
    NothingSeen(db, q, ids);
    for i := 0 to |ids|
      invariant MapOk(slotMap, db, q, ids, i, [])
    {
      var view := GetAvailableSlots(db, q, ids[i]);
      if view.Ok? {
        slotMap := AddSlots(db, q, ids, i, view.value, slotMap, ids[i]);
      }
      ProfessionalDone(slotMap, db, q, ids, i);
    }
    entries := SortedEntries(slotMap);
    EverybodyDone(slotMap, db, q, ids, entries);
  }

  // The inner loop: one professional's slots into the map.
  method AddSlots(db: Database, q: Query, ghost ids: seq<string>, ghost i: nat, slots: seq<Slot>, m: map<nat, Cell>,
                  id: string)
    returns (out: map<nat, Cell>)
    requires q.duration > 0 && i < |ids| && ids[i] == id
    requires MapOk(m, db, q, ids, i, [])
    ensures MapOk(out, db, q, ids, i, slots)
  {
    hide MapOk;
    out := m;
    assert slots[..0] == [];
    for j := 0 to |slots|
      invariant MapOk(out, db, q, ids, i, slots[..j])
    {
      var slot := slots[j];
      SlotDone(out, db, q, ids, i, slots, j);
      if slot.minute !in out {
        out := out[slot.minute := Cell(slot.available, if slot.available then Some(id) else None)];
      } else if !out[slot.minute].available && slot.available {
        out := out[slot.minute := Cell(true, Some(id))];
      }
    }
    assert slots[..|slots|] == slots;
  }

  lemma SlotDone(m: map<nat, Cell>, db: Database, q: Query, ids: seq<string>, i: nat, slots: seq<Slot>, j: nat)
    requires q.duration > 0 && i < |ids| && j < |slots| && MapOk(m, db, q, ids, i, slots[..j])
    ensures MapOk(Added(m, slots[j], ids[i]), db, q, ids, i, slots[..j + 1])
  {
    var more := slots[..j + 1];
    assert more == slots[..j] + [slots[j]];
    forall minute: nat
      ensures CellOk(Added(m, slots[j], ids[i]), db, q, ids, i, more, minute)
    {
      OneSlotMore(m, db, q, ids, i, slots[..j], slots[j], minute);
    }
  }

  // Array.from(map.entries()), sorted by time.
  method SortedEntries(m: map<nat, Cell>) returns (entries: seq<Entry>)
    ensures Increasing(entries)
    ensures forall e :: e in entries <==> e.minute in m && m[e.minute] == e.cell
  {
    entries := [];
    var todo := m.Keys;
    while todo != {}
      invariant todo <= m.Keys && Increasing(entries)
      invariant forall e :: e in entries <==> e.minute in m && e.minute !in todo && m[e.minute] == e.cell
      decreases todo
    {
      var minute :| minute in todo;
      entries := Insert(entries, Entry(minute, m[minute]));
      todo := todo - {minute};
    }
  }

  method Insert(entries: seq<Entry>, e: Entry) returns (out: seq<Entry>)
    requires Increasing(entries) && forall x | x in entries :: x.minute != e.minute
    ensures Increasing(out) && forall x :: x in out <==> x in entries || x == e
  {
    var k := 0;
    while k < |entries| && entries[k].minute < e.minute
      invariant 0 <= k <= |entries| && forall i | 0 <= i < k :: entries[i].minute < e.minute
    {
      k := k + 1;
    }
    out := entries[..k] + [e] + entries[k..];
    Spliced(entries, k, e);
  }

  lemma Spliced(entries: seq<Entry>, k: nat, e: Entry)
    requires k <= |entries| && Increasing(entries)
    requires forall i | 0 <= i < k :: entries[i].minute < e.minute
    requires k < |entries| ==> e.minute < entries[k].minute
    ensures var out := entries[..k] + [e] + entries[k..];
      Increasing(out) && forall x :: x in out <==> x in entries || x == e
  {
    var out := entries[..k] + [e] + entries[k..];
    forall i, j | 0 <= i < j < |out|
      ensures out[i].minute < out[j].minute
    {
      assert out[i] == if i < k then entries[i] else if i == k then e else entries[i - 1];
      assert out[j] == if j < k then entries[j] else if j == k then e else entries[j - 1];
      assert k < |entries| && j > k ==> entries[k].minute <= entries[j - 1].minute;
    }
    assert entries == entries[..k] + entries[k..];
  }

  // --- the month ---------------------------------------------------------------------------------

  predicate HasFree(slots: seq<Slot>) {
    exists i | 0 <= i < |slots| :: slots[i].available
  }

  predicate SomebodyFree(db: Database, q: Query, ids: seq<string>)
    requires q.duration > 0
  {
    exists i | 0 <= i < |ids| :: HasFree(SlotsOf(db, q, ids[i]))
  }

  predicate FreeOn(db: Database, q: Query, ids: seq<string>, day: int) {
    q.duration > 0 && SomebodyFree(db, q.(date := Day(day)), ids)
  }

  // The inner loop of the calendar, left at the first free slot.
  method DayHasSlot(db: Database, q: Query, ids: seq<string>, day: int) returns (found: bool)
    requires q.duration > 0
    ensures found <==> FreeOn(db, q, ids, day)
  {
    hide View;
    found := false;
    var k := 0;
    var dated := q.(date := Day(day));
    while k < |ids| && !found
      invariant 0 <= k <= |ids|
      invariant found <==> exists i | 0 <= i < k :: HasFree(SlotsOf(db, dated, ids[i]))
    {
      var view := GetAvailableSlots(db, dated, ids[k]);
      if view.Ok? && HasFree(view.value) {
        found := true;
      }
      k := k + 1;
    }
  }

  // The dates from `first` on, before `end` and not before today, on which somebody is free.
  ghost predicate Listing(dates: seq<int>, db: Database, q: Query, ids: seq<string>, first: int, end: int, today: int) {
    && (forall d :: d in dates <==> first <= d < end && d >= today && FreeOn(db, q, ids, d))
    && (forall i, j | 0 <= i < j < |dates| :: dates[i] < dates[j])
  }

  lemma NobodyThere(db: Database, q: Query, first: int, end: int, today: int)
    requires q.duration > 0
    ensures Listing([], db, q, [], first, end, today)
  {
  }

  lemma OneDayMore(dates: seq<int>, db: Database, q: Query, ids: seq<string>, first: int, day: int, today: int)
    requires first <= day && Listing(dates, db, q, ids, first, day, today)
    ensures var listed := day >= today && FreeOn(db, q, ids, day);
      Listing(if listed then dates + [day] else dates, db, q, ids, first, day + 1, today)
  {
    hide FreeOn;
    assert forall d :: d in dates + [day] <==> d in dates || d == day;
    assert day !in dates;
    var listed := day >= today && FreeOn(db, q, ids, day);
    var next := if listed then dates + [day] else dates;
    forall d
      ensures d in next <==> first <= d < day + 1 && d >= today && FreeOn(db, q, ids, d)
    {
      if d == day {
        assert d in next <==> listed;
      } else {
        assert d in next <==> d in dates;
      }
    }
    forall i, j | 0 <= i < j < |next|
      ensures next[i] < next[j]
    {
      assert next[i] in next;
    }
  }

  // getCalendarAvailability, for one professional or for everybody who offers the service.
  method CalendarAvailability(db: Database, q: Query, first: int, days: nat, today: int, staff: Option<string>,
                              service: Option<string>)
    returns (dates: seq<int>)
    requires q.duration > 0
    ensures Listing(dates, db, q, if staff.Some? then [staff.value] else StaffForService(db.staff, q.tenant, service),
                    first, first + days, today)
  {
    var ids := if staff.Some? then [staff.value] else StaffForService(db.staff, q.tenant, service);
    dates := [];
    if |ids| == 0 {
      NobodyThere(db, q, first, first + days, today);
      return;
    }
    assert Listing(dates, db, q, ids, first, first, today);
    hide Listing;
    hide FreeOn;
    hide StaffForService;
    for day := first to first + days
      invariant Listing(dates, db, q, ids, first, day, today)
    {
      OneDayMore(dates, db, q, ids, first, day, today);
      if day >= today {
        var dayHasSlot := DayHasSlot(db, q, ids, day);
        if dayHasSlot {
          dates := dates + [day];
        }
      }
    }
  }

  // Somebody is free exactly when the union has a free entry.
  lemma ViewsAgree(es: seq<Entry>, db: Database, q: Query, ids: seq<string>)
    requires q.duration > 0 && IsUnion(es, db, q, ids)
    ensures SomebodyFree(db, q, ids) <==> exists e :: e in es && e.cell.available
  {
    if SomebodyFree(db, q, ids) {
      var i :| 0 <= i < |ids| && HasFree(SlotsOf(db, q, ids[i]));
      var slots := SlotsOf(db, q, ids[i]);
      var k :| 0 <= k < |slots| && slots[k].available;
      assert FreeAt(slots, slots[k].minute) && Lists(slots, slots[k].minute);
      assert AnyLists(db, q, ids, slots[k].minute) && Times(es, slots[k].minute);
      var e :| e in es && e.minute == slots[k].minute;
      assert e.cell.available;
    }
    if e :| e in es && e.cell.available {
      var i :| 0 <= i < |ids| && FreeAt(SlotsOf(db, q, ids[i]), e.minute);
      assert HasFree(SlotsOf(db, q, ids[i]));
    }
  }

  /** A date of the month that is not past is in the calendar exactly when its daily union has a free entry. */
  lemma CalendarAgrees(dates: seq<int>, es: seq<Entry>, db: Database, q: Query, ids: seq<string>,
                       first: int, end: int, today: int, day: int)
    requires q.duration > 0 && Listing(dates, db, q, ids, first, end, today) && first <= day < end && day >= today
    requires IsUnion(es, db, q.(date := Day(day)), ids)
    ensures day in dates <==> exists e :: e in es && e.cell.available
  {
    ViewsAgree(es, db, q.(date := Day(day)), ids);
    hide SomebodyFree;
  }

  /** There is only one such union. */
  lemma {:induction false} UnionDetermined(a: seq<Entry>, b: seq<Entry>, db: Database, q: Query, ids: seq<string>)
    requires q.duration > 0 && IsUnion(a, db, q, ids) && IsUnion(b, db, q, ids)
    ensures a == b
  {
    forall e
      ensures e in a <==> e in b
    {
      if e in a {
        SameCell(a, b, db, q, ids, e);
      }
      if e in b {
        SameCell(b, a, db, q, ids, e);
      }
    }
    SortedSame(a, b);
  }

  lemma SameCell(a: seq<Entry>, b: seq<Entry>, db: Database, q: Query, ids: seq<string>, e: Entry)
    requires q.duration > 0 && IsUnion(a, db, q, ids) && IsUnion(b, db, q, ids) && e in a
    ensures e in b
  {
    assert Times(a, e.minute) && Times(b, e.minute);
    var x :| x in b && x.minute == e.minute;
    assert x.cell == e.cell;
  }

  lemma {:induction false} SortedSame(a: seq<Entry>, b: seq<Entry>)
    requires Increasing(a) && Increasing(b) && forall e :: e in a <==> e in b
    ensures a == b
  {
    if a != [] && b != [] {
      var n, m := |a| - 1, |b| - 1;
      LastIsLargest(a, b);
      assert a == a[..n] + [a[n]] && b == b[..m] + [b[m]];
      forall e
        ensures e in a[..n] <==> e in b[..m]
      {
        assert e in a <==> e in a[..n] || e == a[n];
        assert e in b <==> e in b[..m] || e == b[m];
      }
      SortedSame(a[..n], b[..m]);
    } else {
      BothEmpty(a, b);
    }
  }

  lemma BothEmpty(a: seq<Entry>, b: seq<Entry>)
    requires forall e :: e in a <==> e in b
    ensures a == [] <==> b == []
  {
    if a != [] {
      assert a[0] in b;
    }
    if b != [] {
      assert b[0] in a;
    }
  }

  lemma LastIsLargest(a: seq<Entry>, b: seq<Entry>)
    requires Increasing(a) && Increasing(b) && a != [] && b != [] && forall e :: e in a <==> e in b
    ensures a[|a| - 1] == b[|b| - 1]
  {
    var x, y := a[|a| - 1], b[|b| - 1];
    assert x in b && y in a;
    var i :| 0 <= i < |b| && b[i] == x;
    var j :| 0 <= j < |a| && a[j] == y;
  }

  lemma SlotIsAt(start: int, end: int, step: int, taken: set<int>, i: nat)
    requires step > 0 && i < |DaySlots(start, end, step, taken)|
    ensures var slot := DaySlots(start, end, step, taken)[i];
      slot.at == SlotStart(start, step, i) && slot.minute == MinuteLabel(slot.at)
  {
    hide SlotCount;
    hide SlotStart;
    hide MinuteLabel;
  }

  lemma Apart(first: int, end: int, duration: int, i: nat, j: nat)
    requires duration > 0 && end - first * MINUTE <= DAY && i < j
    requires (first + j * duration) * MINUTE + duration * MINUTE <= end
    ensures first + i * duration < first + j * duration < first + i * duration + 1440
  {
    StepsGrow(duration, i + 1, j);
    StepsGrow(duration, 0, i);
  }

  // Slots of whole minutes within one day's length.
  lemma SlotsDistinct(first: int, end: int, duration: int, taken: set<int>, i: nat, j: nat)
    requires duration > 0 && end - first * MINUTE <= DAY
    requires i < j < |DaySlots(first * MINUTE, end, duration * MINUTE, taken)|
    ensures var slots := DaySlots(first * MINUTE, end, duration * MINUTE, taken); slots[i].minute != slots[j].minute
  {
    hide DaySlots;
    hide SlotStart;
    hide MinuteLabel;
    BackToBack(first * MINUTE, end, duration * MINUTE, taken, j);
    SlotIsAt(first * MINUTE, end, duration * MINUTE, taken, i);
    SlotIsAt(first * MINUTE, end, duration * MINUTE, taken, j);
    WholeMinutes(first, duration, i);
    WholeMinutes(first, duration, j);
    Apart(first, end, duration, i, j);
    LabelsDiffer(first + i * duration, first + j * duration);
  }

  /** One professional's day lists no time twice. */
  lemma TimesDistinct(db: Database, q: Query, s: Staff, day: int, i: nat, j: nat)
    requires q.duration > 0 && i < j < |DayOf(db, q, s, day)|
    ensures DayOf(db, q, s, day)[i].minute != DayOf(db, q, s, day)[j].minute
  {
    var h := WorkedHours(s, day).value;
    var first, end := day * 1440 + h.open.value + q.zone, InstantOf(day, h.close.value, q.zone);
    var taken := Taken(db.bookings, q.tenant, s.id, WindowStart(day, q.serverZone), WindowEnd(day, q.serverZone));
    assert InstantOf(day, h.open.value, q.zone) == first * MINUTE;
    assert DayOf(db, q, s, day) == DaySlots(first * MINUTE, end, q.duration * MINUTE, taken);
    hide DayOf;
    hide DaySlots;
    hide Taken;
    SlotsDistinct(first, end, q.duration, taken, i, j);
  }

  lemma LabelsDiffer(m: int, n: int)
    requires m < n < m + 1440
    ensures MinuteLabel(m * MINUTE) != MinuteLabel(n * MINUTE)
  {
    assert m * MINUTE / MINUTE == m && n * MINUTE / MINUTE == n;
  }

  lemma WholeMinutes(start: int, duration: int, i: nat)
    ensures SlotStart(start * MINUTE, duration * MINUTE, i) == (start + i * duration) * MINUTE
  {
    assert i * (duration * MINUTE) == (i * duration) * MINUTE;
  }
}
