/** "Cerrar caja": the two-stage summary equals the direct one, and agrees with the orders. */
module ClosingSummary {
  import opened Prelude
  import opened Orders
  import opened LedgerAgreement

  datatype Key = Key(payBy: PayMethod, status: TrxStatus)

  // One row of the database's $group stage.
  datatype Row = Row(key: Key, count: nat, sumAmount: real)

  datatype Bucket = Bucket(count: int, approved: real, pending: real)

  datatype MethodTotal = MethodTotal(payBy: PayMethod, count: int, approvedAmount: real, pendingAmount: real)

  datatype Summary = Summary(
    totalCount: int, approvedCount: int, rejectedCount: int, pendingCount: int, byMethod: seq<MethodTotal>)

  // A choice of transactions by method and status; None leaves that side open.
  datatype Choice = Choice(payBy: Option<PayMethod>, status: Option<TrxStatus>)

  const ALL := Choice(None, None)

  function KeyOf(t: Trx): Key {
    Key(t.payBy, t.status)
  }

  predicate Picks(c: Choice, k: Key) {
    (c.payBy.Some? ==> c.payBy.value == k.payBy) && (c.status.Some? ==> c.status.value == k.status)
  }

  function Exactly(k: Key): Choice {
    Choice(Some(k.payBy), Some(k.status))
  }

  // The $match stage.
  predicate Matches(t: Trx, tenant: string, from: int, to: int, only: Option<PayMethod>) {
    t.tenant == tenant && from <= t.createdAt <= to && (only.Some? ==> t.payBy == only.value)
  }

  function Matching(ts: seq<Trx>, tenant: string, from: int, to: int, only: Option<PayMethod>): seq<Trx> {
    if ts == [] then []
    else
      var n := |ts| - 1;
      Matching(ts[..n], tenant, from, to, only) + if Matches(ts[n], tenant, from, to, only) then [ts[n]] else []
  }

  // --- counting and adding over raw transactions -----------------------------------

  function CountWhere(ts: seq<Trx>, c: Choice): nat {
    if ts == [] then 0 else CountWhere(ts[..|ts| - 1], c) + if Picks(c, KeyOf(ts[|ts| - 1])) then 1 else 0
  }

  function AmountWhere(ts: seq<Trx>, c: Choice): real {
    if ts == [] then 0.0
    else AmountWhere(ts[..|ts| - 1], c) + if Picks(c, KeyOf(ts[|ts| - 1])) then ts[|ts| - 1].amount else 0.0
  }

  ghost predicate DistinctMethods(ms: seq<MethodTotal>) {
    forall i, j | 0 <= i < j < |ms| :: ms[i].payBy != ms[j].payBy
  }

  ghost predicate SortedByCount(ms: seq<MethodTotal>) {
    forall i, j | 0 <= i < j < |ms| :: ms[i].count >= ms[j].count
  }

  ghost predicate TotalFits(b: MethodTotal, ts: seq<Trx>) {
    && b.count == CountWhere(ts, Choice(Some(b.payBy), None))
    && b.approvedAmount == Round2(AmountWhere(ts, Choice(Some(b.payBy), Some(Approved))))
    && b.pendingAmount == Round2(AmountWhere(ts, Choice(Some(b.payBy), Some(PendingReview))))
  }

  ghost predicate Listed(p: PayMethod, ms: seq<MethodTotal>) {
    exists b | b in ms :: b.payBy == p
  }

  ghost predicate Used(p: PayMethod, ts: seq<Trx>) {
    exists t | t in ts :: t.payBy == p
  }

  /** The direct specification: counts and rounded sums over the raw transactions. */
  ghost predicate IsSummaryOf(s: Summary, ts: seq<Trx>) {
    && s.totalCount == |ts|
    && s.approvedCount == CountWhere(ts, Choice(None, Some(Approved)))
    && s.rejectedCount == CountWhere(ts, Choice(None, Some(Rejected)))
    && s.pendingCount == CountWhere(ts, Choice(None, Some(PendingReview)))
    && DistinctMethods(s.byMethod) && SortedByCount(s.byMethod)
    && (forall p :: Listed(p, s.byMethod) <==> Used(p, ts))
    && (forall b | b in s.byMethod :: TotalFits(b, ts))
  }

  // --- the grouped rows -----------------------------------------------------------

  ghost predicate DistinctKeys(rows: seq<Row>) {
    forall i, j | 0 <= i < j < |rows| :: rows[i].key != rows[j].key
  }

  ghost predicate HasRow(rows: seq<Row>, k: Key) {
    exists r | r in rows :: r.key == k
  }

  /** What $group returns, in any order: one row per key that occurs, with its count and sum. */
  ghost predicate Groups(rows: seq<Row>, ts: seq<Trx>) {
    && DistinctKeys(rows)
    && (forall r | r in rows ::
          r.count == CountWhere(ts, Exactly(r.key)) && r.count > 0 && r.sumAmount == AmountWhere(ts, Exactly(r.key)))
    && (forall t | t in ts :: HasRow(rows, KeyOf(t)))
  }

  function RowCount(rows: seq<Row>, c: Choice): nat {
    if rows == [] then 0
    else RowCount(rows[..|rows| - 1], c) + if Picks(c, rows[|rows| - 1].key) then rows[|rows| - 1].count else 0
  }

  function RowAmount(rows: seq<Row>, c: Choice): real {
    if rows == [] then 0.0
    else RowAmount(rows[..|rows| - 1], c) + if Picks(c, rows[|rows| - 1].key) then rows[|rows| - 1].sumAmount else 0.0
  }

  // The rows refilled from a given list of transactions.
  ghost function Refilled(rows: seq<Row>, ts: seq<Trx>): seq<Row> {
    seq(|rows|, i requires 0 <= i < |rows| =>
      Row(rows[i].key, CountWhere(ts, Exactly(rows[i].key)), AmountWhere(ts, Exactly(rows[i].key))))
  }

  lemma RefilledPrefix(rows: seq<Row>, ts: seq<Trx>)
    requires rows != []
    ensures Refilled(rows, ts)[..|rows| - 1] == Refilled(rows[..|rows| - 1], ts)
  {
  }

  // One more transaction shows up in exactly one row.
  lemma {:induction false} OneMore(rows: seq<Row>, ts: seq<Trx>, t: Trx, c: Choice)
    requires DistinctKeys(rows)
    ensures RowCount(Refilled(rows, ts + [t]), c)
         == RowCount(Refilled(rows, ts), c) + if Picks(c, KeyOf(t)) && HasRow(rows, KeyOf(t)) then 1 else 0
    ensures RowAmount(Refilled(rows, ts + [t]), c)
         == RowAmount(Refilled(rows, ts), c) + if Picks(c, KeyOf(t)) && HasRow(rows, KeyOf(t)) then t.amount else 0.0
  {
    assert (ts + [t])[..|ts|] == ts;
    if rows != [] {
      var n := |rows| - 1;
      OneMore(rows[..n], ts, t, c);
      RefilledPrefix(rows, ts);
      RefilledPrefix(rows, ts + [t]);
      assert rows == rows[..n] + [rows[n]];
      if rows[n].key == KeyOf(t) {
        assert rows[n] in rows && !HasRow(rows[..n], KeyOf(t));
      }
    }
  }

  lemma {:induction false} EmptyRows(rows: seq<Row>, c: Choice)
    ensures RowCount(Refilled(rows, []), c) == 0 && RowAmount(Refilled(rows, []), c) == 0.0
  {
    if rows != [] {
      EmptyRows(rows[..|rows| - 1], c);
      RefilledPrefix(rows, []);
    }
  }

  lemma {:induction false} RefilledSums(rows: seq<Row>, ts: seq<Trx>, c: Choice)
    requires DistinctKeys(rows) && forall t | t in ts :: HasRow(rows, KeyOf(t))
    ensures RowCount(Refilled(rows, ts), c) == CountWhere(ts, c)
    ensures RowAmount(Refilled(rows, ts), c) == AmountWhere(ts, c)
  {
    if ts == [] {
      EmptyRows(rows, c);
    } else {
      var n := |ts| - 1;
      RefilledSums(rows, ts[..n], c);
      OneMore(rows, ts[..n], ts[n], c);
      assert ts[..n] + [ts[n]] == ts && ts[n] in ts;
    }
  }

  /** Counting and adding over the grouped rows is counting and adding over the raw transactions. */
  lemma GroupedSums(rows: seq<Row>, ts: seq<Trx>, c: Choice)
    requires Groups(rows, ts)
    ensures RowCount(rows, c) == CountWhere(ts, c)
    ensures RowAmount(rows, c) == AmountWhere(ts, c)
  {
    RefilledSums(rows, ts, c);
    assert forall i | 0 <= i < |rows| :: rows[i] in rows;
    assert Refilled(rows, ts) == rows;
  }

  // --- the fold over the rows --------------------------------------------------------

  ghost predicate RowsTotal(b: MethodTotal, rows: seq<Row>) {
    && b.count == RowCount(rows, Choice(Some(b.payBy), None))
    && b.approvedAmount == Round2(RowAmount(rows, Choice(Some(b.payBy), Some(Approved))))
    && b.pendingAmount == Round2(RowAmount(rows, Choice(Some(b.payBy), Some(PendingReview))))
  }

  ghost predicate BucketFits(b: Bucket, p: PayMethod, rows: seq<Row>) {
    && b.count == RowCount(rows, Choice(Some(p), None))
    && b.approved == RowAmount(rows, Choice(Some(p), Some(Approved)))
    && b.pending == RowAmount(rows, Choice(Some(p), Some(PendingReview)))
  }

  ghost predicate MethodIn(p: PayMethod, rows: seq<Row>) {
    exists r | r in rows :: r.key.payBy == p
  }

  lemma {:induction false} AbsentMethod(rows: seq<Row>, p: PayMethod, st: Option<TrxStatus>)
    requires !MethodIn(p, rows)
    ensures RowCount(rows, Choice(Some(p), st)) == 0 && RowAmount(rows, Choice(Some(p), st)) == 0.0
  {
    if rows != [] {
      var n := |rows| - 1;
      assert rows[n] in rows && forall r | r in rows[..n] :: r in rows;
      AbsentMethod(rows[..n], p, st);
    }
  }

  // A descending, stable insertion, as Array.prototype.sort orders by count.
  function Insert(ms: seq<MethodTotal>, b: MethodTotal): seq<MethodTotal> {
    if ms == [] || ms[|ms| - 1].count >= b.count then ms + [b]
    else Insert(ms[..|ms| - 1], b) + [ms[|ms| - 1]]
  }

  lemma {:induction false} InsertKeeps(ms: seq<MethodTotal>, b: MethodTotal)
    ensures multiset(Insert(ms, b)) == multiset(ms) + multiset{b}
    ensures SortedByCount(ms) ==> SortedByCount(Insert(ms, b))
  {
    if !(ms == [] || ms[|ms| - 1].count >= b.count) {
      var n := |ms| - 1;
      assert ms == ms[..n] + [ms[n]];
      InsertKeeps(ms[..n], b);
      if SortedByCount(ms) {
        LastSmallest(Insert(ms[..n], b), ms[..n], b, ms[n]);
      }
    }
  }

  // A sorted front of the given elements, followed by one that counts no more than any of them.
  lemma LastSmallest(front: seq<MethodTotal>, ms: seq<MethodTotal>, b: MethodTotal, last: MethodTotal)
    requires SortedByCount(front) && multiset(front) == multiset(ms) + multiset{b}
    requires b.count >= last.count && forall i | 0 <= i < |ms| :: ms[i].count >= last.count
    ensures SortedByCount(front + [last])
  {
    forall i | 0 <= i < |front|
      ensures front[i].count >= last.count
    {
      assert front[i] in multiset(front);
      assert front[i] in ms || front[i] == b;
    }
  }

  lemma DistinctByMultiset(a: seq<MethodTotal>, b: seq<MethodTotal>)
    requires DistinctMethods(a) && multiset(a) == multiset(b)
    ensures DistinctMethods(b)
  {
    forall i, j | 0 <= i < j < |b|
      ensures b[i].payBy != b[j].payBy
    {
      assert b[i] in multiset(b) && b[j] in multiset(b);
      if b[i] == b[j] {
        assert b == b[..i] + [b[i]] + b[i + 1..j] + [b[j]] + b[j + 1..];
        assert multiset(b)[b[i]] >= 2;
        Once(a, b[i]);
      }
    }
  }

  lemma {:induction false} Once(a: seq<MethodTotal>, x: MethodTotal)
    requires DistinctMethods(a)
    ensures multiset(a)[x] <= 1
  {
    if a != [] {
      var n := |a| - 1;
      assert a == a[..n] + [a[n]];
      Once(a[..n], x);
      if x == a[n] {
        assert x !in a[..n];
      }
    }
  }

  /** buildClosingSummary after the aggregation: counters, a Map of buckets, rounding, sorting. */
  method BuildClosingSummary(rows: seq<Row>) returns (s: Summary)
    ensures s.totalCount == RowCount(rows, ALL)
    ensures s.approvedCount == RowCount(rows, Choice(None, Some(Approved)))
    ensures s.rejectedCount == RowCount(rows, Choice(None, Some(Rejected)))
    ensures s.pendingCount == RowCount(rows, Choice(None, Some(PendingReview)))
    ensures DistinctMethods(s.byMethod) && SortedByCount(s.byMethod)
    ensures forall p :: Listed(p, s.byMethod) <==> MethodIn(p, rows)
    ensures forall b | b in s.byMethod :: RowsTotal(b, rows)
  {
    var total, approved, rejected, pending := 0, 0, 0, 0;
    var order: seq<PayMethod> := [];
    var buckets: map<PayMethod, Bucket> := map[];
    for i := 0 to |rows|
      invariant total == RowCount(rows[..i], ALL)
      invariant approved == RowCount(rows[..i], Choice(None, Some(Approved)))
      invariant rejected == RowCount(rows[..i], Choice(None, Some(Rejected)))
      invariant pending == RowCount(rows[..i], Choice(None, Some(PendingReview)))
      invariant forall a, b | 0 <= a < b < |order| :: order[a] != order[b]
      invariant forall p :: p in order <==> p in buckets
      invariant forall p :: p in buckets <==> MethodIn(p, rows[..i])
      invariant forall p | p in buckets :: BucketFits(buckets[p], p, rows[..i])
    {
      var r := rows[i];
      var p := r.key.payBy;
      assert rows[..i + 1] == rows[..i] + [r] && rows[..i + 1][..i] == rows[..i];
      total := total + r.count;
      if r.key.status == Approved {
        approved := approved + r.count;
      } else if r.key.status == Rejected {
        rejected := rejected + r.count;
      } else {
        pending := pending + r.count;
      }
      if p !in buckets {
        AbsentMethod(rows[..i], p, None);
        AbsentMethod(rows[..i], p, Some(Approved));
        AbsentMethod(rows[..i], p, Some(PendingReview));
        order := order + [p];
      }
      var b := if p in buckets then buckets[p] else Bucket(0, 0.0, 0.0);
      b := b.(count := b.count + r.count);
      if r.key.status == Approved {
        b := b.(approved := b.approved + r.sumAmount);
      } else if r.key.status == PendingReview {
        b := b.(pending := b.pending + r.sumAmount);
      }
      assert BucketFits(b, p, rows[..i + 1]);
      forall q | q in buckets && q != p
        ensures BucketFits(buckets[q], q, rows[..i + 1])
      {
      }
      assert r in rows[..i + 1];
      buckets := buckets[p := b];
    }
    assert rows[..|rows|] == rows;
    var byMethod := SortBuckets(order, buckets);
    forall b | b in byMethod
      ensures RowsTotal(b, rows)
    {
      assert BucketFits(buckets[b.payBy], b.payBy, rows);
    }
    s := Summary(total, approved, rejected, pending, byMethod);
  }

  function Rounded(p: PayMethod, b: Bucket): MethodTotal {
    MethodTotal(p, b.count, Round2(b.approved), Round2(b.pending))
  }

  // The entries of the Map in insertion order, rounded, then sorted.
  method SortBuckets(order: seq<PayMethod>, buckets: map<PayMethod, Bucket>) returns (ms: seq<MethodTotal>)
    requires forall p :: p in order <==> p in buckets
    requires forall a, b | 0 <= a < b < |order| :: order[a] != order[b]
    ensures DistinctMethods(ms) && SortedByCount(ms)
    ensures forall p :: Listed(p, ms) <==> p in buckets
    ensures forall b | b in ms :: b.payBy in buckets
    ensures forall b | b in ms :: b == Rounded(b.payBy, buckets[b.payBy])
  {
    var raw := seq(|order|, i requires 0 <= i < |order| => Rounded(order[i], buckets[order[i]]));
    ms := Sorted(raw);
    DistinctByMultiset(raw, ms);
    SameMembers(raw, ms);
    forall p
      ensures Listed(p, ms) <==> p in buckets
    {
      if p in buckets {
        var a :| 0 <= a < |order| && order[a] == p;
        assert raw[a] in raw;
      }
    }
  }

  lemma SameMembers(a: seq<MethodTotal>, b: seq<MethodTotal>)
    requires multiset(a) == multiset(b)
    ensures forall x :: x in a <==> x in b
  {
    assert forall x :: (x in a <==> x in multiset(a)) && (x in b <==> x in multiset(b));
  }

  method Sorted(raw: seq<MethodTotal>) returns (ms: seq<MethodTotal>)
    ensures SortedByCount(ms) && multiset(ms) == multiset(raw)
  {
    ms := [];
    for i := 0 to |raw|
      invariant SortedByCount(ms) && multiset(ms) == multiset(raw[..i])
    {
      InsertKeeps(ms, raw[i]);
      assert raw[..i + 1] == raw[..i] + [raw[i]];
      ms := Insert(ms, raw[i]);
    }
    assert raw[..|raw|] == raw;
  }

  // --- the main results -----------------------------------------------------------------

  lemma {:induction false} CountAll(ts: seq<Trx>)
    ensures CountWhere(ts, ALL) == |ts|
    ensures CountWhere(ts, ALL) == CountWhere(ts, Choice(None, Some(Approved)))
      + CountWhere(ts, Choice(None, Some(Rejected))) + CountWhere(ts, Choice(None, Some(PendingReview)))
  {
    if ts != [] {
      CountAll(ts[..|ts| - 1]);
    }
  }

  lemma MethodsAgree(rows: seq<Row>, ts: seq<Trx>, p: PayMethod)
    requires Groups(rows, ts)
    ensures MethodIn(p, rows) <==> Used(p, ts)
  {
    if MethodIn(p, rows) {
      var r :| r in rows && r.key.payBy == p;
      Occurs(ts, r.key);
    }
    if Used(p, ts) {
      var t :| t in ts && t.payBy == p;
      assert HasRow(rows, KeyOf(t));
    }
  }

  lemma {:induction false} Occurs(ts: seq<Trx>, k: Key)
    requires CountWhere(ts, Exactly(k)) > 0
    ensures exists t | t in ts :: KeyOf(t) == k
  {
    var n := |ts| - 1;
    if KeyOf(ts[n]) == k {
      assert ts[n] in ts;
    } else {
      Occurs(ts[..n], k);
      var t :| t in ts[..n] && KeyOf(t) == k;
      assert t in ts;
    }
  }

  /** For any order of the grouped rows, the summary built from them is the direct one. */
  method ClosingSummary(rows: seq<Row>, ghost ts: seq<Trx>) returns (s: Summary)
    requires Groups(rows, ts)
    ensures IsSummaryOf(s, ts)
    ensures s.totalCount == s.approvedCount + s.rejectedCount + s.pendingCount
    ensures s.totalCount == MethodCounts(s.byMethod)
  {
    s := BuildClosingSummary(rows);
    CountAll(ts);
    GroupedSums(rows, ts, ALL);
    GroupedSums(rows, ts, Choice(None, Some(Approved)));
    GroupedSums(rows, ts, Choice(None, Some(Rejected)));
    GroupedSums(rows, ts, Choice(None, Some(PendingReview)));
    forall p
      ensures Listed(p, s.byMethod) <==> Used(p, ts)
    {
      MethodsAgree(rows, ts, p);
    }
    forall b | b in s.byMethod
      ensures TotalFits(b, ts)
    {
      GroupedSums(rows, ts, Choice(Some(b.payBy), None));
      GroupedSums(rows, ts, Choice(Some(b.payBy), Some(Approved)));
      GroupedSums(rows, ts, Choice(Some(b.payBy), Some(PendingReview)));
    }
    forall t | t in ts
      ensures Listed(t.payBy, s.byMethod)
    {
      assert Used(t.payBy, ts);
    }
    MethodsCover(s.byMethod, ts);
  }

  function MethodCounts(ms: seq<MethodTotal>): int {
    if ms == [] then 0 else MethodCounts(ms[..|ms| - 1]) + ms[|ms| - 1].count
  }

  // The total list of methods with the counts they have in ts.
  ghost function Recounted(ms: seq<MethodTotal>, ts: seq<Trx>): int {
    if ms == [] then 0 else Recounted(ms[..|ms| - 1], ts) + CountWhere(ts, Choice(Some(ms[|ms| - 1].payBy), None))
  }

  lemma {:induction false} RecountOne(ms: seq<MethodTotal>, ts: seq<Trx>, t: Trx)
    requires DistinctMethods(ms)
    ensures Recounted(ms, ts + [t]) == Recounted(ms, ts) + if Listed(t.payBy, ms) then 1 else 0
  {
    assert (ts + [t])[..|ts|] == ts;
    if ms != [] {
      var n := |ms| - 1;
      RecountOne(ms[..n], ts, t);
      assert ms == ms[..n] + [ms[n]];
      if ms[n].payBy == t.payBy {
        assert ms[n] in ms && !Listed(t.payBy, ms[..n]);
      }
    }
  }

  lemma {:induction false} RecountAll(ms: seq<MethodTotal>, ts: seq<Trx>)
    requires DistinctMethods(ms) && forall t | t in ts :: Listed(t.payBy, ms)
    ensures Recounted(ms, ts) == |ts|
  {
    if ts == [] {
      RecountNone(ms);
    } else {
      var n := |ts| - 1;
      RecountAll(ms, ts[..n]);
      RecountOne(ms, ts[..n], ts[n]);
      assert ts[..n] + [ts[n]] == ts && ts[n] in ts;
    }
  }

  lemma {:induction false} RecountNone(ms: seq<MethodTotal>)
    ensures Recounted(ms, []) == 0
  {
    if ms != [] {
      RecountNone(ms[..|ms| - 1]);
    }
  }

  lemma {:induction false} RecountSame(ms: seq<MethodTotal>, ts: seq<Trx>)
    requires forall b | b in ms :: TotalFits(b, ts)
    ensures MethodCounts(ms) == Recounted(ms, ts)
  {
    if ms != [] {
      var n := |ms| - 1;
      assert forall b | b in ms[..n] :: b in ms;
      assert ms[n] in ms;
      RecountSame(ms[..n], ts);
    }
  }

  // The counts of the listed methods add up to the transactions.
  lemma MethodsCover(ms: seq<MethodTotal>, ts: seq<Trx>)
    requires DistinctMethods(ms) && (forall b | b in ms :: TotalFits(b, ts))
    requires forall t | t in ts :: Listed(t.payBy, ms)
    ensures MethodCounts(ms) == |ts|
  {
    RecountSame(ms, ts);
    RecountAll(ms, ts);
  }

  /** Two summaries of the same transactions agree, whatever order the rows came in. */
  lemma SummaryDetermined(a: Summary, b: Summary, ts: seq<Trx>)
    requires IsSummaryOf(a, ts) && IsSummaryOf(b, ts)
    ensures a.totalCount == b.totalCount && a.approvedCount == b.approvedCount
    ensures a.rejectedCount == b.rejectedCount && a.pendingCount == b.pendingCount
    ensures forall x :: x in a.byMethod <==> x in b.byMethod
  {
    forall x | x in a.byMethod
      ensures x in b.byMethod
    {
      assert Listed(x.payBy, a.byMethod);
      assert Listed(x.payBy, b.byMethod);
    }
    forall x | x in b.byMethod
      ensures x in a.byMethod
    {
      assert Listed(x.payBy, b.byMethod);
      assert Listed(x.payBy, a.byMethod);
    }
  }

  // --- the drawer and the orders -----------------------------------------------------------

  // The amount one transaction adds to the drawer.
  lemma MatchedOne(ts: seq<Trx>, t: Trx, tenant: string, w: Period, only: Option<PayMethod>, p: PayMethod)
    requires only.Some? ==> only.value == p
    ensures AmountWhere(ts + if Matches(t, tenant, w.first, w.last, only) then [t] else [],
                        Choice(Some(p), Some(Approved)))
         == AmountWhere(ts, Choice(Some(p), Some(Approved))) + EntryValue(t, tenant, p, w)
  {
    assert (ts + [t])[..|ts|] == ts && ts + [] == ts;
  }

  lemma {:induction false} MatchedAmount(ts: seq<Trx>, tenant: string, w: Period, only: Option<PayMethod>, p: PayMethod)
    requires only.Some? ==> only.value == p
    ensures AmountWhere(Matching(ts, tenant, w.first, w.last, only), Choice(Some(p), Some(Approved)))
         == SumReal(ts, t => EntryValue(t, tenant, p, w))
  {
    if ts != [] {
      var n := |ts| - 1;
      MatchedAmount(ts[..n], tenant, w, only, p);
      MatchedOne(Matching(ts[..n], tenant, w.first, w.last, only), ts[n], tenant, w, only, p);
      hide AmountWhere;
      hide Matches;
    }
  }

  lemma {:induction false} MatchingKeeps(ts: seq<Trx>, tenant: string, w: Period, only: Option<PayMethod>)
    ensures forall t | t in Matching(ts, tenant, w.first, w.last, only) :: only.Some? ==> t.payBy == only.value
  {
    if ts != [] {
      MatchingKeeps(ts[..|ts| - 1], tenant, w, only);
    }
  }

  /** Over every run with audited cash, for any period and with or without the method filter, the approved amount
      shown for a method is the rounded sum over the tenant's orders paid in that period by that method: their totals
      in USD for cash, in Bs for debit, and the declared Bs for PagoMovil. */
  lemma DrawerAgreesWithOrders(m: Machine, stock: Stock, events: seq<Event>, tenant: string, w: Period,
                               only: Option<PayMethod>, s: Summary, b: MethodTotal)
    requires !PaysTwice(m) && Audited(events)
    requires IsSummaryOf(s, Matching(Run(m, Start(stock), events).ledger, tenant, w.first, w.last, only))
      && b in s.byMethod
    ensures b.approvedAmount == Round2(OrdersTotal(Run(m, Start(stock), events), tenant, b.payBy, w))
    ensures var orders := Run(m, Start(stock), events).orders;
      && (b.payBy == Cash ==>
            b.approvedAmount == Round2(SumReal(orders, x => if PaidDuring(x, tenant, Cash, w) then x.total else 0.0)))
      && (b.payBy == DebitCard ==>
            b.approvedAmount ==
            Round2(SumReal(orders, x => if PaidDuring(x, tenant, DebitCard, w) then x.totalBs else 0.0)))
      && (b.payBy == Pagomovil ==>
            b.approvedAmount ==
            Round2(SumReal(orders, x => if PaidDuring(x, tenant, Pagomovil, w) then Or(x.declared, 0.0) else 0.0)))
  {
    OrdersTotalByMethod(Run(m, Start(stock), events), tenant, w);
    hide OrdersTotal;
    hide Round2;
    var ledger := Run(m, Start(stock), events).ledger;
    var ts := Matching(ledger, tenant, w.first, w.last, only);
    MatchingKeeps(ledger, tenant, w, only);
    assert Listed(b.payBy, s.byMethod) && Used(b.payBy, ts);
    TotalsAgree(m, stock, events, tenant, b.payBy, w);
    MatchedAmount(ledger, tenant, w, only, b.payBy);
    assert TotalFits(b, ts);
    hide Matching;
    hide AmountWhere;
    hide Run;
    hide PaysTwice;
  }
}
