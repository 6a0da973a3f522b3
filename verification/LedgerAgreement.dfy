/** The payment ledger agrees with the orders, over every run. */
module LedgerAgreement {
  import opened Prelude
  import opened Orders

  // Every audited cash payment: the one best-effort write of the ledger went through.
  ghost predicate Audited(events: seq<Event>) {
    forall e | e in events :: e.ConfirmCash? ==> e.audited
  }

  /** What "agrees" means: at most one transaction per order, approved exactly when the payment is. */
  ghost predicate Agrees(s: State) {
    && (forall i, j | 0 <= i < j < |s.ledger| :: s.ledger[i].order != s.ledger[j].order)
    && (forall o | 0 <= o < |s.orders| :: s.orders[o].pay == PayApproved <==> Entered(s, o, Approved))
  }

  ghost predicate Entered(s: State, o: nat, status: TrxStatus) {
    exists i | 0 <= i < |s.ledger| :: s.ledger[i].order == o && s.ledger[i].status == status
  }

  /** After a payment updateStatus can bring the order back to a status that asks for one. */
  ghost predicate PaysTwice(m: Machine) {
    || Reach(m, Paid, PendingCash) || Reach(m, Preparing, PendingCash)
    || Reach(m, Paid, PendingVerification) || Reach(m, Preparing, PendingVerification)
  }

  // --- the invariant ---------------------------------------------------------------

  /** What a payment of the order brings: dollars in cash, Bs by debit card, the declared Bs by PagoMovil. Orders of
      the other methods are paid neither at the till nor by review. */
  ghost function Due(x: Order): real {
    match x.payBy
    case Cash => x.total
    case DebitCard => x.totalBs
    case Pagomovil => Or(x.declared, 0.0)
    case _ => 0.0
  }

  ghost predicate EntryFits(t: Trx, x: Order) {
    && t.tenant == x.tenant && t.payBy == x.payBy && x.recorded == Some(t.createdAt)
    && match t.status
      case Approved => x.pay == PayApproved && t.amount == Due(x)
      case PendingReview => (x.pay == PayInReview || x.pay == PayRejected) && t.amount == Due(x)
      case Rejected => x.pay == PayRejected
  }

  ghost predicate EntriesFit(s: State) {
    && (forall i, j | 0 <= i < j < |s.ledger| :: s.ledger[i].order != s.ledger[j].order)
    && (forall i | 0 <= i < |s.ledger| ::
         s.ledger[i].order < |s.orders| && EntryFits(s.ledger[i], s.orders[s.ledger[i].order]))
  }

  ghost predicate Unentered(s: State, o: nat) {
    forall i | 0 <= i < |s.ledger| :: s.ledger[i].order != o
  }

  ghost predicate OrderFits(m: Machine, s: State, o: nat)
    requires o < |s.orders|
  {
    var x := s.orders[o];
    && (x.pay == PayPending ==> Unentered(s, o))
    && (x.payBy != Pagomovil && x.pay != PayApproved ==> Unentered(s, o))
    && (x.pay == PayInReview ==> x.payBy == Pagomovil && Entered(s, o, PendingReview))
    && (x.pay == PayApproved ==> Reach(m, Paid, x.status) || Reach(m, Preparing, x.status))
  }

  ghost predicate Fits(m: Machine, s: State) {
    EntriesFit(s) && forall o | 0 <= o < |s.orders| :: OrderFits(m, s, o)
  }

  ghost predicate PaidAreEntered(s: State) {
    forall o | 0 <= o < |s.orders| && s.orders[o].pay == PayApproved :: Entered(s, o, Approved)
  }

  lemma {:induction false} LatestPendingFinds(ledger: seq<Trx>, o: nat, i: nat)
    requires i < |ledger| && ledger[i].order == o && ledger[i].status == PendingReview
    ensures LatestPending(ledger, o).Some?
  {
    if i < |ledger| - 1 {
      LatestPendingFinds(ledger[..|ledger| - 1], o, i);
    }
  }

  // An order untouched by a step whose own entries are untouched still fits.
  lemma StillFits(m: Machine, s: State, t: State, o: nat)
    requires o < |s.orders| && o < |t.orders| && t.orders[o] == s.orders[o] && OrderFits(m, s, o)
    requires |s.ledger| <= |t.ledger|
    requires forall i | 0 <= i < |s.ledger| :: t.ledger[i].order == s.ledger[i].order
    requires forall i | 0 <= i < |s.ledger| && s.ledger[i].order == o :: t.ledger[i] == s.ledger[i]
    requires forall i | |s.ledger| <= i < |t.ledger| :: t.ledger[i].order != o
    ensures OrderFits(m, t, o)
    ensures Entered(s, o, Approved) ==> Entered(t, o, Approved)
  {
    if Entered(s, o, PendingReview) {
      var i :| 0 <= i < |s.ledger| && s.ledger[i].order == o && s.ledger[i].status == PendingReview;
      assert t.ledger[i].order == o && t.ledger[i].status == PendingReview;
    }
    if Entered(s, o, Approved) {
      var i :| 0 <= i < |s.ledger| && s.ledger[i].order == o && s.ledger[i].status == Approved;
      assert t.ledger[i].order == o && t.ledger[i].status == Approved;
    }
  }

  // A call writes one order and at most one entry, its own: enough to look at those.
  ghost predicate WritesOnly(s: State, t: State, o: nat)
    requires o < |s.orders|
  {
    && |t.orders| == |s.orders| && (forall p | 0 <= p < |s.orders| && p != o :: t.orders[p] == s.orders[p])
    && |s.ledger| <= |t.ledger| <= |s.ledger| + 1
    && (forall i | 0 <= i < |s.ledger| :: t.ledger[i].order == s.ledger[i].order)
    && (forall i | 0 <= i < |s.ledger| && s.ledger[i].order != o :: t.ledger[i] == s.ledger[i])
    && (|t.ledger| > |s.ledger| ==> t.ledger[|s.ledger|].order == o && Unentered(s, o))
  }

  lemma WriteEntriesFit(s: State, t: State, o: nat)
    requires EntriesFit(s) && o < |s.orders| && WritesOnly(s, t, o)
    requires forall i | 0 <= i < |t.ledger| && t.ledger[i].order == o :: EntryFits(t.ledger[i], t.orders[o])
    ensures EntriesFit(t)
  {
    forall i | 0 <= i < |t.ledger|
      ensures t.ledger[i].order < |t.orders| && EntryFits(t.ledger[i], t.orders[t.ledger[i].order])
    {
    }
  }

  lemma WriteFits(m: Machine, s: State, t: State, o: nat)
    requires Fits(m, s) && o < |s.orders| && WritesOnly(s, t, o)
    requires OrderFits(m, t, o)
    requires forall i | 0 <= i < |t.ledger| && t.ledger[i].order == o :: EntryFits(t.ledger[i], t.orders[o])
    ensures Fits(m, t)
    ensures PaidAreEntered(s) && (t.orders[o].pay == PayApproved ==> Entered(t, o, Approved)) ==> PaidAreEntered(t)
  {
    WriteEntriesFit(s, t, o);
    forall p | 0 <= p < |s.orders| && p != o
      ensures OrderFits(m, t, p)
      ensures Entered(s, p, Approved) ==> Entered(t, p, Approved)
    {
      StillFits(m, s, t, p);
    }
    hide EntryFits;
    hide EntriesFit;
    hide OrderFits;
  }

  // The one entry a review decides: the order's only one, and pending.
  lemma ReviewedEntry(m: Machine, s: State, o: nat, decision: TrxStatus) returns (i: nat)
    requires Fits(m, s) && o < |s.orders| && s.orders[o].pay == PayInReview
    ensures i < |s.ledger| && s.ledger[i].order == o && s.ledger[i].status == PendingReview
    ensures Review(s.ledger, o, decision) == s.ledger[i := s.ledger[i].(status := decision)]
    ensures forall j | 0 <= j < |s.ledger| && s.ledger[j].order == o :: j == i
  {
    assert OrderFits(m, s, o);
    i :| 0 <= i < |s.ledger| && s.ledger[i].order == o && s.ledger[i].status == PendingReview;
    LatestPendingFinds(s.ledger, o, i);
    assert LatestPending(s.ledger, o) == Some(i);
  }

  lemma SubmitFits(m: Machine, s: State, e: Event)
    requires Fits(m, s) && e.Submit? && Enabled(m, s, e)
    ensures Fits(m, Apply(m, s, e))
    ensures PaidAreEntered(s) ==> PaidAreEntered(Apply(m, s, e))
  {
    hide Apply;
    hide Enabled;
    hide Reach;
    SubmitWrites(m, s, e);
    var t := Apply(m, s, e);
    assert OrderFits(m, s, e.o);
    assert t.ledger[|s.ledger|].order == e.o && t.ledger[|s.ledger|].status == PendingReview;
    assert Entered(t, e.o, PendingReview);
    assert OrderFits(m, t, e.o);
    WriteFits(m, s, t, e.o);
  }

  lemma VerifyFits(m: Machine, s: State, e: Event)
    requires Fits(m, s) && e.Verify? && Enabled(m, s, e)
    ensures Fits(m, Apply(m, s, e))
    ensures PaidAreEntered(s) ==> PaidAreEntered(Apply(m, s, e))
  {
    hide Apply;
    hide Enabled;
    hide Fits;
    hide PaidAreEntered;
    hide Review;
    VerifyWrites(m, s, e);
    var decision := if e.approve then Approved else Rejected;
    var i := ReviewedEntry(m, s, e.o, decision);
    ReviewedFits(m, s, Apply(m, s, e), e.o, i, decision, e.auto);
  }

  // The reviewed entry and its order move together.
  lemma ReviewedFits(m: Machine, s: State, t: State, o: nat, i: nat, decision: TrxStatus, auto: bool)
    requires Fits(m, s) && o < |s.orders| && s.orders[o].pay == PayInReview
    requires i < |s.ledger| && s.ledger[i].order == o && s.ledger[i].status == PendingReview
    requires forall j | 0 <= j < |s.ledger| && s.ledger[j].order == o :: j == i
    requires t.ledger == s.ledger[i := s.ledger[i].(status := decision)] && decision != PendingReview
    requires t.orders == s.orders[o :=
               if decision == Approved then s.orders[o].(status := PaidStatus(auto), pay := PayApproved)
               else s.orders[o].(status := Cancelled, pay := PayRejected)]
    ensures Fits(m, t)
    ensures PaidAreEntered(s) ==> PaidAreEntered(t)
  {
    hide Reach;
    assert OrderFits(m, s, o) && EntryFits(s.ledger[i], s.orders[o]);
    ReachRefl(m, Paid);
    ReachRefl(m, Preparing);
    assert t.ledger[i].order == o && t.ledger[i].status == decision;
    assert Entered(t, o, decision);
    assert OrderFits(m, t, o);
    assert forall j | 0 <= j < |t.ledger| && t.ledger[j].order == o :: j == i;
    WriteFits(m, s, t, o);
  }

  lemma ConfirmFits(m: Machine, s: State, e: Event)
    requires Fits(m, s) && e.ConfirmCash? && Enabled(m, s, e) && !PaysTwice(m)
    ensures e.o < |s.orders| && s.orders[e.o].pay != PayApproved && Unentered(s, e.o)
    ensures Fits(m, Apply(m, s, e))
    ensures e.audited && PaidAreEntered(s) ==> PaidAreEntered(Apply(m, s, e))
  {
    hide Apply;
    hide Enabled;
    hide Reach;
    ConfirmWrites(m, s, e);
    var t := Apply(m, s, e);
    assert OrderFits(m, s, e.o) && s.orders[e.o].pay != PayApproved;
    ReachRefl(m, Paid);
    ReachRefl(m, Preparing);
    assert OrderFits(m, t, e.o);
    if e.audited {
      assert t.ledger[|s.ledger|].order == e.o && t.ledger[|s.ledger|].status == Approved;
      assert Entered(t, e.o, Approved);
    }
    WriteFits(m, s, t, e.o);
  }

  lemma UpdateFits(m: Machine, s: State, e: Event)
    requires Fits(m, s) && e.UpdateStatus? && Enabled(m, s, e)
    ensures Fits(m, Apply(m, s, e))
    ensures PaidAreEntered(s) ==> PaidAreEntered(Apply(m, s, e))
  {
    hide Apply;
    hide Enabled;
    UpdateWrites(m, s, e);
    MovedFits(m, s, Apply(m, s, e), e.o, e.to);
  }

  lemma MovedFits(m: Machine, s: State, t: State, o: nat, to: Status)
    requires Fits(m, s) && o < |s.orders| && Edge(s.orders[o].status, to) in m
    requires t.orders == s.orders[o := s.orders[o].(status := to)] && t.ledger == s.ledger
    ensures Fits(m, t) && (PaidAreEntered(s) ==> PaidAreEntered(t))
  {
    hide Reach;
    var x := s.orders[o];
    assert OrderFits(m, s, o);
    if Reach(m, Paid, x.status) {
      ReachStep(m, Paid, x.status, to);
    }
    if Reach(m, Preparing, x.status) {
      ReachStep(m, Preparing, x.status, to);
    }
    SameLedger(s, t);
    assert OrderFits(m, t, o);
    assert forall i | 0 <= i < |t.ledger| && t.ledger[i].order == o :: EntryFits(s.ledger[i], x);
    WriteFits(m, s, t, o);
  }

  lemma SameLedger(s: State, t: State)
    requires t.ledger == s.ledger
    ensures forall o, status :: Entered(t, o, status) <==> Entered(s, o, status)
    ensures forall o :: Unentered(t, o) <==> Unentered(s, o)
  {
  }

  lemma ExpireFits(m: Machine, s: State, e: Event)
    requires Fits(m, s) && e.Expire? && Enabled(m, s, e) && !PaysTwice(m)
    ensures e.o < |s.orders| && s.orders[e.o].pay != PayApproved
    ensures Fits(m, Apply(m, s, e))
    ensures PaidAreEntered(s) ==> PaidAreEntered(Apply(m, s, e))
  {
    hide Apply;
    hide Enabled;
    hide Reach;
    ExpireWrites(m, s, e);
    var t := Apply(m, s, e);
    assert OrderFits(m, s, e.o) && s.orders[e.o].pay != PayApproved;
    SameLedger(s, t);
    assert OrderFits(m, t, e.o);
    assert forall i | 0 <= i < |t.ledger| && t.ledger[i].order == e.o :: EntryFits(s.ledger[i], s.orders[e.o]);
    WriteFits(m, s, t, e.o);
  }

  lemma CreateFits(m: Machine, s: State, e: Event)
    requires Fits(m, s) && e.Create? && e.saved && Enabled(m, s, e)
    ensures Fits(m, Apply(m, s, e))
    ensures PaidAreEntered(s) ==> PaidAreEntered(Apply(m, s, e))
  {
    hide Apply;
    hide Enabled;
    hide Reach;
    CreateWrites(m, s, e);
    var t := Apply(m, s, e);
    assert Unentered(t, |s.orders|);
    forall p | 0 <= p < |s.orders|
      ensures OrderFits(m, t, p)
      ensures Entered(s, p, Approved) ==> Entered(t, p, Approved)
    {
      StillFits(m, s, t, p);
    }
  }

  lemma StockStepFits(m: Machine, s: State, t: State)
    requires Fits(m, s) && t.orders == s.orders && t.ledger == s.ledger
    ensures Fits(m, t)
    ensures PaidAreEntered(s) ==> PaidAreEntered(t)
  {
    hide Reach;
    forall p | 0 <= p < |s.orders|
      ensures OrderFits(m, t, p)
      ensures Entered(s, p, Approved) ==> Entered(t, p, Approved)
    {
      StillFits(m, s, t, p);
    }
  }

  lemma StepFits(m: Machine, s: State, e: Event)
    requires Fits(m, s) && !PaysTwice(m)
    ensures Fits(m, Apply(m, s, e))
    ensures PaidAreEntered(s) && (e.ConfirmCash? ==> e.audited) ==> PaidAreEntered(Apply(m, s, e))
  {
    hide Apply;
    hide Enabled;
    hide Fits;
    hide PaidAreEntered;
    hide PaysTwice;
    if Enabled(m, s, e) && e.Submit? {
      SubmitFits(m, s, e);
    } else if Enabled(m, s, e) && e.Verify? {
      VerifyFits(m, s, e);
    } else if Enabled(m, s, e) && e.ConfirmCash? {
      ConfirmFits(m, s, e);
    } else if Enabled(m, s, e) && e.UpdateStatus? {
      UpdateFits(m, s, e);
    } else if Enabled(m, s, e) && e.Expire? {
      ExpireFits(m, s, e);
    } else if Enabled(m, s, e) && e.Create? && e.saved {
      CreateFits(m, s, e);
    } else {
      OthersWriteNothing(m, s, e);
      StockStepFits(m, s, Apply(m, s, e));
    }
  }

  lemma {:induction false} RunFits(m: Machine, stock: Stock, events: seq<Event>)
    requires !PaysTwice(m)
    ensures Fits(m, Run(m, Start(stock), events))
    ensures Audited(events) ==> PaidAreEntered(Run(m, Start(stock), events))
  {
    if events != [] {
      var n := |events| - 1;
      RunFits(m, stock, events[..n]);
      assert events[n] in events && forall e | e in events[..n] :: e in events;
      StepFits(m, Run(m, Start(stock), events[..n]), events[n]);
    }
  }

  /** In every run, audited or not: one transaction per order at most, and an approved one only for a paid order. */
  lemma ApprovedEntryMeansPaid(m: Machine, stock: Stock, events: seq<Event>)
    requires !PaysTwice(m)
    ensures var s := Run(m, Start(stock), events);
      && (forall i, j | 0 <= i < j < |s.ledger| :: s.ledger[i].order != s.ledger[j].order)
      && (forall o | 0 <= o < |s.orders| && Entered(s, o, Approved) :: s.orders[o].pay == PayApproved)
  {
    RunFits(m, stock, events);
  }

  lemma LedgerAgrees(m: Machine, stock: Stock, events: seq<Event>)
    requires !PaysTwice(m) && Audited(events)
    ensures Agrees(Run(m, Start(stock), events))
  {
    RunFits(m, stock, events);
  }

  // --- the amounts -------------------------------------------------------------------

  datatype Period = Period(first: int, last: int)

  predicate During(at: int, w: Period) {
    w.first <= at <= w.last
  }

  ghost function EntryValue(t: Trx, tenant: string, p: PayMethod, w: Period): real {
    if t.tenant == tenant && t.payBy == p && t.status == Approved && During(t.createdAt, w) then t.amount else 0.0
  }

  /** Paid by the method in the period: its transaction was made then. */
  ghost predicate PaidDuring(x: Order, tenant: string, p: PayMethod, w: Period) {
    && x.tenant == tenant && x.payBy == p && x.pay == PayApproved
    && x.recorded.Some? && During(x.recorded.value, w)
  }

  ghost function OrderValue(x: Order, tenant: string, p: PayMethod, w: Period): real {
    if PaidDuring(x, tenant, p, w) then Due(x) else 0.0
  }

  /** What the drawer of a period holds according to the ledger, and according to the orders. */
  ghost function LedgerTotal(s: State, tenant: string, p: PayMethod, w: Period): real {
    SumReal(s.ledger, t => EntryValue(t, tenant, p, w))
  }

  ghost function OrdersTotal(s: State, tenant: string, p: PayMethod, w: Period): real {
    SumReal(s.orders, x => OrderValue(x, tenant, p, w))
  }

  // Totals depend on the orders and the ledger only.
  lemma SameTotals(s: State, t: State, tenant: string, p: PayMethod, w: Period)
    ensures t.ledger == s.ledger ==> LedgerTotal(t, tenant, p, w) == LedgerTotal(s, tenant, p, w)
    ensures t.orders == s.orders ==> OrdersTotal(t, tenant, p, w) == OrdersTotal(s, tenant, p, w)
  {
  }

  lemma StepTotals(m: Machine, s: State, e: Event, tenant: string, p: PayMethod, w: Period)
    requires Fits(m, s) && !PaysTwice(m) && (e.ConfirmCash? ==> e.audited)
    ensures LedgerTotal(Apply(m, s, e), tenant, p, w) - LedgerTotal(s, tenant, p, w)
         == OrdersTotal(Apply(m, s, e), tenant, p, w) - OrdersTotal(s, tenant, p, w)
  {
    hide Apply;
    hide Enabled;
    hide Fits;
    hide PaysTwice;
    hide LedgerTotal;
    hide OrdersTotal;
    if Enabled(m, s, e) && e.Submit? {
      SubmitTotals(m, s, e, tenant, p, w);
    } else if Enabled(m, s, e) && e.Verify? {
      VerifyTotals(m, s, e, tenant, p, w);
    } else if Enabled(m, s, e) && e.ConfirmCash? {
      ConfirmTotals(m, s, e, tenant, p, w);
    } else if Enabled(m, s, e) && e.UpdateStatus? {
      UpdateTotals(m, s, e, tenant, p, w);
    } else if Enabled(m, s, e) && e.Expire? {
      ExpireTotals(m, s, e, tenant, p, w);
    } else if Enabled(m, s, e) && e.Create? && e.saved {
      CreateTotals(m, s, e, tenant, p, w);
    } else {
      OthersWriteNothing(m, s, e);
      SameTotals(s, Apply(m, s, e), tenant, p, w);
    }
  }

  // Replacing one order.
  lemma OrderReplaced(s: State, t: State, o: nat, tenant: string, p: PayMethod, w: Period)
    requires o < |s.orders| && |t.orders| == |s.orders| && t.orders == s.orders[o := t.orders[o]]
    ensures OrdersTotal(t, tenant, p, w)
         == OrdersTotal(s, tenant, p, w) - OrderValue(s.orders[o], tenant, p, w) + OrderValue(t.orders[o], tenant, p, w)
  {
    SumRealUpdate(s.orders, o, t.orders[o], x => OrderValue(x, tenant, p, w));
  }

  lemma EntryAppended(s: State, t: State, tenant: string, p: PayMethod, w: Period)
    requires |t.ledger| > 0 && t.ledger[..|t.ledger| - 1] == s.ledger
    ensures LedgerTotal(t, tenant, p, w)
      == LedgerTotal(s, tenant, p, w) + EntryValue(t.ledger[|t.ledger| - 1], tenant, p, w)
  {
  }

  lemma CreateTotals(m: Machine, s: State, e: Event, tenant: string, p: PayMethod, w: Period)
    requires Enabled(m, s, e) && e.Create? && e.saved
    ensures LedgerTotal(Apply(m, s, e), tenant, p, w) == LedgerTotal(s, tenant, p, w)
    ensures OrdersTotal(Apply(m, s, e), tenant, p, w) == OrdersTotal(s, tenant, p, w)
  {
    hide Apply;
    hide Enabled;
    CreateWrites(m, s, e);
    SumRealAppend(s.orders, NewOrder(s.requests[e.r]), x => OrderValue(x, tenant, p, w));
  }

  lemma SubmitTotals(m: Machine, s: State, e: Event, tenant: string, p: PayMethod, w: Period)
    requires Enabled(m, s, e) && e.Submit?
    ensures LedgerTotal(Apply(m, s, e), tenant, p, w) == LedgerTotal(s, tenant, p, w)
    ensures OrdersTotal(Apply(m, s, e), tenant, p, w) == OrdersTotal(s, tenant, p, w)
  {
    hide Apply;
    hide Enabled;
    hide LedgerTotal;
    hide OrdersTotal;
    SubmitWrites(m, s, e);
    OrderReplaced(s, Apply(m, s, e), e.o, tenant, p, w);
    EntryAppended(s, Apply(m, s, e), tenant, p, w);
  }

  lemma ConfirmTotals(m: Machine, s: State, e: Event, tenant: string, p: PayMethod, w: Period)
    requires Fits(m, s) && !PaysTwice(m) && Enabled(m, s, e) && e.ConfirmCash? && e.audited
    ensures LedgerTotal(Apply(m, s, e), tenant, p, w) - LedgerTotal(s, tenant, p, w)
         == OrdersTotal(Apply(m, s, e), tenant, p, w) - OrdersTotal(s, tenant, p, w)
  {
    hide Apply;
    hide Enabled;
    hide PaysTwice;
    hide Fits;
    hide LedgerTotal;
    hide OrdersTotal;
    ConfirmFits(m, s, e);
    ConfirmWrites(m, s, e);
    OrderReplaced(s, Apply(m, s, e), e.o, tenant, p, w);
    EntryAppended(s, Apply(m, s, e), tenant, p, w);
  }

  lemma UpdateTotals(m: Machine, s: State, e: Event, tenant: string, p: PayMethod, w: Period)
    requires Enabled(m, s, e) && e.UpdateStatus?
    ensures LedgerTotal(Apply(m, s, e), tenant, p, w) == LedgerTotal(s, tenant, p, w)
    ensures OrdersTotal(Apply(m, s, e), tenant, p, w) == OrdersTotal(s, tenant, p, w)
  {
    hide Apply;
    hide Enabled;
    hide LedgerTotal;
    hide OrdersTotal;
    UpdateWrites(m, s, e);
    OrderReplaced(s, Apply(m, s, e), e.o, tenant, p, w);
    SameTotals(s, Apply(m, s, e), tenant, p, w);
  }

  lemma ExpireTotals(m: Machine, s: State, e: Event, tenant: string, p: PayMethod, w: Period)
    requires Fits(m, s) && !PaysTwice(m) && Enabled(m, s, e) && e.Expire?
    ensures LedgerTotal(Apply(m, s, e), tenant, p, w) == LedgerTotal(s, tenant, p, w)
    ensures OrdersTotal(Apply(m, s, e), tenant, p, w) == OrdersTotal(s, tenant, p, w)
  {
    hide Apply;
    hide Enabled;
    hide PaysTwice;
    hide Fits;
    hide LedgerTotal;
    hide OrdersTotal;
    ExpireFits(m, s, e);
    ExpireWrites(m, s, e);
    OrderReplaced(s, Apply(m, s, e), e.o, tenant, p, w);
    SameTotals(s, Apply(m, s, e), tenant, p, w);
  }

  // Before a review neither side counts the order; afterwards both or none, at what it owes.
  lemma VerifyTotals(m: Machine, s: State, e: Event, tenant: string, p: PayMethod, w: Period)
    requires Fits(m, s) && Enabled(m, s, e) && e.Verify?
    ensures LedgerTotal(Apply(m, s, e), tenant, p, w) - LedgerTotal(s, tenant, p, w)
         == OrdersTotal(Apply(m, s, e), tenant, p, w) - OrdersTotal(s, tenant, p, w)
  {
    hide Apply;
    hide Enabled;
    hide Review;
    hide OrdersTotal;
    VerifyWrites(m, s, e);
    var t := Apply(m, s, e);
    var decision := if e.approve then Approved else Rejected;
    var i := ReviewedEntry(m, s, e.o, decision);
    EntryOf(m, s, i);
    hide Fits;
    OrderReplaced(s, t, e.o, tenant, p, w);
    SumRealUpdate(s.ledger, i, s.ledger[i].(status := decision), t => EntryValue(t, tenant, p, w));
  }

  lemma EntryOf(m: Machine, s: State, i: nat)
    requires Fits(m, s) && i < |s.ledger|
    ensures s.ledger[i].order < |s.orders| && EntryFits(s.ledger[i], s.orders[s.ledger[i].order])
  {
  }

  /** For every run whose cash audits were written and every period, the ledger's approved amount of a method is
      the sum of what the orders paid in it owe: declared Bs, total in USD for cash, total in Bs for debit. */
  lemma {:induction false} TotalsAgree(m: Machine, stock: Stock, events: seq<Event>, tenant: string, p: PayMethod,
                                       w: Period)
    requires !PaysTwice(m) && Audited(events)
    ensures LedgerTotal(Run(m, Start(stock), events), tenant, p, w)
      == OrdersTotal(Run(m, Start(stock), events), tenant, p, w)
  {
    if events != [] {
      var n := |events| - 1;
      assert events[n] in events && forall e | e in events[..n] :: e in events;
      TotalsAgree(m, stock, events[..n], tenant, p, w);
      RunFits(m, stock, events[..n]);
      StepTotals(m, Run(m, Start(stock), events[..n]), events[n], tenant, p, w);
    }
  }

  // The same sums, method by method.
  lemma OrdersTotalByMethod(s: State, tenant: string, w: Period)
    ensures OrdersTotal(s, tenant, Cash, w)
         == SumReal(s.orders, x => if PaidDuring(x, tenant, Cash, w) then x.total else 0.0)
    ensures OrdersTotal(s, tenant, DebitCard, w)
         == SumReal(s.orders, x => if PaidDuring(x, tenant, DebitCard, w) then x.totalBs else 0.0)
    ensures OrdersTotal(s, tenant, Pagomovil, w)
         == SumReal(s.orders, x => if PaidDuring(x, tenant, Pagomovil, w) then Or(x.declared, 0.0) else 0.0)
  {
    SumRealEqual(s.orders, x => OrderValue(x, tenant, Cash, w),
                 x => if PaidDuring(x, tenant, Cash, w) then x.total else 0.0);
    SumRealEqual(s.orders, x => OrderValue(x, tenant, DebitCard, w),
                 x => if PaidDuring(x, tenant, DebitCard, w) then x.totalBs else 0.0);
    SumRealEqual(s.orders, x => OrderValue(x, tenant, Pagomovil, w),
                 x => if PaidDuring(x, tenant, Pagomovil, w) then Or(x.declared, 0.0) else 0.0);
  }

  /** In the currency of each method: the cash entries of a period add up to the USD totals of the orders paid in
      cash, the debit entries to the Bs totals of those paid by card, the PagoMovil entries to what was declared. */
  lemma DrawerByMethod(m: Machine, stock: Stock, events: seq<Event>, tenant: string, w: Period)
    requires !PaysTwice(m) && Audited(events)
    ensures var s := Run(m, Start(stock), events);
      && LedgerTotal(s, tenant, Cash, w)
         == SumReal(s.orders, x => if PaidDuring(x, tenant, Cash, w) then x.total else 0.0)
      && LedgerTotal(s, tenant, DebitCard, w)
         == SumReal(s.orders, x => if PaidDuring(x, tenant, DebitCard, w) then x.totalBs else 0.0)
      && LedgerTotal(s, tenant, Pagomovil, w)
         == SumReal(s.orders, x => if PaidDuring(x, tenant, Pagomovil, w) then Or(x.declared, 0.0) else 0.0)
  {
    TotalsAgree(m, stock, events, tenant, Cash, w);
    TotalsAgree(m, stock, events, tenant, DebitCard, w);
    TotalsAgree(m, stock, events, tenant, Pagomovil, w);
    OrdersTotalByMethod(Run(m, Start(stock), events), tenant, w);
    hide LedgerTotal;
    hide OrdersTotal;
    hide Run;
  }

  /** The shipped machines never bring a paid order back to where it is asked to pay. */
  lemma ShippedMachinesPayOnce()
    ensures !PaysTwice(FOOD) && !PaysTwice(RETAIL)
  {
    var food := {Paid, Preparing, Ready, Delivered, Cancelled};
    var retail := {Paid, Preparing};
    hide Reach;
    ReachStays(FOOD, food, Paid, PendingCash);
    ReachStays(FOOD, food, Preparing, PendingCash);
    ReachStays(FOOD, food, Paid, PendingVerification);
    ReachStays(FOOD, food, Preparing, PendingVerification);
    ReachStays(RETAIL, retail, Paid, PendingCash);
    ReachStays(RETAIL, retail, Preparing, PendingCash);
    ReachStays(RETAIL, retail, Paid, PendingVerification);
    ReachStays(RETAIL, retail, Preparing, PendingVerification);
  }
}
