/** The two percent guard of verifyPagomovil and the single use of a payment reference, over every run. */
module Approvals {
  import opened Prelude
  import opened Orders

  ghost predicate WithinTwoPercent(declared: real, expected: real) {
    0.98 * expected <= declared <= 1.02 * expected
  }

  lemma Times(a: real, b: real)
    requires b > 0.0
    ensures a > 0.0 <==> a * b > 0.0
  {
    if a > 0.0 {
      assert a * b > 0.0;
    } else {
      assert (-a) * b >= 0.0;
    }
  }

  lemma Spread(a: real, b: real)
    ensures (a - 0.02) * b == a * b - 0.02 * b
  {
  }

  lemma ShareIs(diff: real, expected: real)
    requires expected > 0.0
    ensures diff / expected * 100.0 > 2.0 <==> diff > 0.02 * expected
  {
    var share := diff / expected;
    assert share * expected == diff;
    Times(share - 0.02, expected);
    Spread(share, expected);
  }

  lemma GuardIs(declared: real, expected: real)
    requires expected > 0.0
    ensures (if declared >= expected then declared - expected else expected - declared) / expected * 100.0 > 2.0
            <==> !WithinTwoPercent(declared, expected)
  {
    ShareIs(if declared >= expected then declared - expected else expected - declared, expected);
  }

  // What there is to compare: a price in Bs and a declared amount.
  predicate Comparable(x: Order) {
    x.totalBs > 0.0 && x.declared.Some? && x.declared.value != 0.0
  }

  /** A decision on a payment is taken exactly when it is under review and, to approve without force, what was
      declared is within two percent of the total in Bs where both are known. Otherwise nothing changes. */
  lemma DecisionIff(m: Machine, s: State, o: nat, approve: bool, force: bool, auto: bool)
    requires o < |s.orders|
    ensures var x, t := s.orders[o], Apply(m, s, Verify(o, approve, force, auto));
      if x.pay == PayInReview && (approve && !force && Comparable(x) ==> WithinTwoPercent(x.declared.value, x.totalBs))
      then t.orders == s.orders[o := if approve then x.(status := if auto then Preparing else Paid, pay := PayApproved)
                                     else x.(status := Cancelled, pay := PayRejected)]
      else t == s
  {
    var x := s.orders[o];
    if Comparable(x) {
      GuardIs(x.declared.value, x.totalBs);
    }
    hide WithinTwoPercent;
  }

  /** A submission is accepted exactly for a PagoMovil order not yet paid, with a reference no other order of the tenant
      carries. It puts payment and order under review and leaves one entry waiting with the declared amount. */
  lemma SubmissionIff(m: Machine, s: State, o: nat, amount: real, ref: string, at: int)
    requires o < |s.orders|
    ensures var x, t := s.orders[o], Apply(m, s, Submit(o, amount, ref, at));
      var unused := forall j | 0 <= j < |s.orders| && j != o ::
        s.orders[j].tenant != x.tenant || s.orders[j].reference != Some(ref);
      if x.payBy == Pagomovil && x.pay == PayPending && unused
      then
        && t.orders == s.orders[o := x.(status := PendingVerification, pay := PayInReview, declared := Some(amount),
                                       reference := Some(ref), recorded := Some(at))]
        && t.ledger == s.ledger + [Trx(o, x.tenant, Pagomovil, PendingReview, amount, at)]
        && t.stock == s.stock
      else t == s
  {
  }

  /** A payment at the till is accepted exactly for a cash or debit order waiting for it. */
  lemma TillIff(m: Machine, s: State, o: nat, auto: bool, audited: bool, at: int)
    requires o < |s.orders|
    ensures var x, t := s.orders[o], Apply(m, s, ConfirmCash(o, auto, audited, at));
      if (x.payBy == Cash || x.payBy == DebitCard) && x.status == PendingCash
      then
        && t.orders == s.orders[o := x.(status := if auto then Preparing else Paid, pay := PayApproved,
                                       recorded := Some(at))]
        && t.stock == s.stock && (!audited ==> t.ledger == s.ledger)
      else t == s
  {
  }

  /** A review goes to the latest entry of the order still waiting, when there is one. */
  lemma {:induction false} LatestIs(ledger: seq<Trx>, o: nat)
    ensures LatestPending(ledger, o).None? <==>
      forall i | 0 <= i < |ledger| && ledger[i].order == o :: ledger[i].status != PendingReview
    ensures LatestPending(ledger, o).Some? ==>
      forall i | 0 <= i < |ledger| && ledger[i].order == o && ledger[i].status == PendingReview ::
        ledger[i].createdAt <= ledger[LatestPending(ledger, o).value].createdAt
  {
    if ledger != [] {
      LatestIs(ledger[..|ledger| - 1], o);
    }
  }

  // --- over every run -------------------------------------------------------------------

  ghost predicate NoForce(events: seq<Event>) {
    forall e | e in events :: e.Verify? && e.approve ==> !e.force
  }

  ghost predicate OrderApproved(x: Order) {
    && (x.pay == PayInReview ==> x.payBy == Pagomovil && x.declared.Some?)
    && (x.payBy == Pagomovil && x.pay == PayApproved ==>
          x.declared.Some? && (Comparable(x) ==> WithinTwoPercent(x.declared.value, x.totalBs)))
  }

  ghost predicate AllApproved(s: State) {
    forall o | 0 <= o < |s.orders| :: OrderApproved(s.orders[o])
  }

  lemma StepApproved(m: Machine, s: State, e: Event)
    requires AllApproved(s) && (e.Verify? && e.approve ==> !e.force)
    ensures AllApproved(Apply(m, s, e))
  {
    hide Apply;
    hide Enabled;
    hide WithinTwoPercent;
    if Enabled(m, s, e) && e.Submit? {
      SubmitWrites(m, s, e);
    } else if Enabled(m, s, e) && e.Verify? {
      VerifyWrites(m, s, e);
      DecisionIff(m, s, e.o, e.approve, e.force, e.auto);
    } else if Enabled(m, s, e) && e.ConfirmCash? {
      ConfirmWrites(m, s, e);
    } else if Enabled(m, s, e) && e.UpdateStatus? {
      UpdateWrites(m, s, e);
    } else if Enabled(m, s, e) && e.Expire? {
      ExpireWrites(m, s, e);
    } else if Enabled(m, s, e) && e.Create? && e.saved {
      CreateWrites(m, s, e);
    } else {
      OthersWriteNothing(m, s, e);
    }
  }

  /** Without forced approvals, in every run and under any machine: a PagoMovil order that was approved declared an
      amount, and within two percent of its total in Bs when neither is zero. */
  lemma {:induction false} ApprovedWithinTwoPercent(m: Machine, stock: Stock, events: seq<Event>)
    requires NoForce(events)
    ensures AllApproved(Run(m, Start(stock), events))
  {
    if events != [] {
      var n := |events| - 1;
      assert events[n] in events && forall e | e in events[..n] :: e in events;
      ApprovedWithinTwoPercent(m, stock, events[..n]);
      StepApproved(m, Run(m, Start(stock), events[..n]), events[n]);
    }
  }

  /** No two orders of a tenant carry the same payment reference. */
  ghost predicate ReferencesOnce(s: State) {
    forall i, j | 0 <= i < j < |s.orders| && s.orders[i].tenant == s.orders[j].tenant && s.orders[i].reference.Some? ::
      s.orders[i].reference != s.orders[j].reference
  }

  lemma SubmitOnce(m: Machine, s: State, e: Event)
    requires ReferencesOnce(s) && Enabled(m, s, e) && e.Submit?
    ensures ReferencesOnce(Apply(m, s, e))
  {
    SubmitWrites(m, s, e);
    assert forall j | 0 <= j < |s.orders| && j != e.o && s.orders[j].tenant == s.orders[e.o].tenant ::
      s.orders[j].reference != Some(e.ref);
    hide Apply;
    hide Enabled;
  }

  lemma StepOnce(m: Machine, s: State, e: Event)
    requires ReferencesOnce(s)
    ensures ReferencesOnce(Apply(m, s, e))
  {
    hide Apply;
    hide Enabled;
    if Enabled(m, s, e) && e.Submit? {
      SubmitOnce(m, s, e);
    } else if Enabled(m, s, e) && e.Verify? {
      VerifyWrites(m, s, e);
    } else if Enabled(m, s, e) && e.ConfirmCash? {
      ConfirmWrites(m, s, e);
    } else if Enabled(m, s, e) && e.UpdateStatus? {
      UpdateWrites(m, s, e);
    } else if Enabled(m, s, e) && e.Expire? {
      ExpireWrites(m, s, e);
    } else if Enabled(m, s, e) && e.Create? && e.saved {
      CreateWrites(m, s, e);
    } else {
      OthersWriteNothing(m, s, e);
    }
  }

  /** One receipt pays one order: over every run no two orders of a tenant carry the same reference. */
  lemma {:induction false} ReferencePaysOnce(m: Machine, stock: Stock, events: seq<Event>)
    ensures ReferencesOnce(Run(m, Start(stock), events))
  {
    if events != [] {
      hide ReferencesOnce;
      ReferencePaysOnce(m, stock, events[..|events| - 1]);
      StepOnce(m, Run(m, Start(stock), events[..|events| - 1]), events[|events| - 1]);
    }
  }
}
