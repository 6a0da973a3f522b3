/** Which rejected payments leave their transaction waiting for review: those that expired. */
module PendingEntries {
  import opened Prelude
  import opened Orders
  import opened LedgerAgreement
  import DoubleRestore

  /** The payment is rejected while its transaction still waits. */
  ghost predicate Stale(s: State, o: nat) {
    o < |s.orders| && s.orders[o].pay == PayRejected && Entered(s, o, PendingReview)
  }

  /** The sweep reaches the order while its payment is under review. */
  ghost predicate ExpiresInReview(m: Machine, s: State, e: Event, o: nat) {
    e == Expire(o) && Enabled(m, s, e) && s.orders[o].pay == PayInReview
  }

  ghost predicate ExpiredInReview(m: Machine, s: State, events: seq<Event>, o: nat)
    decreases |events|
  {
    events != [] &&
      (ExpiredInReview(m, s, events[..|events| - 1], o)
       || ExpiresInReview(m, Run(m, s, events[..|events| - 1]), events[|events| - 1], o))
  }

  // --- entries under review, under any machine ------------------------------------------------

  // Entries of PagoMovil orders come from their one submission; only they are ever under review.
  ghost predicate OneSubmission(s: State) {
    && (forall i | 0 <= i < |s.ledger| :: s.ledger[i].order < |s.orders|)
    && (forall i | 0 <= i < |s.ledger| && s.ledger[i].status == PendingReview ::
          s.orders[s.ledger[i].order].payBy == Pagomovil && s.orders[s.ledger[i].order].pay != PayApproved)
    && (forall i, j | 0 <= i < j < |s.ledger| && s.ledger[i].order == s.ledger[j].order ::
          s.orders[s.ledger[i].order].payBy != Pagomovil)
    && (forall o | 0 <= o < |s.orders| && s.orders[o].payBy == Pagomovil && s.orders[o].pay == PayPending ::
         Unentered(s, o))
    && (forall o | 0 <= o < |s.orders| && s.orders[o].pay == PayInReview ::
          s.orders[o].payBy == Pagomovil && Entered(s, o, PendingReview))
  }

  // The one entry a review decides.
  lemma ReviewOne(s: State, o: nat, decision: TrxStatus) returns (i: nat)
    requires OneSubmission(s) && o < |s.orders| && s.orders[o].pay == PayInReview
    ensures i < |s.ledger| && s.ledger[i].order == o && s.ledger[i].status == PendingReview
    ensures Review(s.ledger, o, decision) == s.ledger[i := s.ledger[i].(status := decision)]
    ensures forall j | 0 <= j < |s.ledger| && s.ledger[j].order == o :: j == i
  {
    i :| 0 <= i < |s.ledger| && s.ledger[i].order == o && s.ledger[i].status == PendingReview;
    LatestPendingFinds(s.ledger, o, i);
  }

  // A step that adds one entry, of an order that had none under review.
  lemma EntryAdded(s: State, t: State, p: nat, x: Trx)
    requires t.ledger == s.ledger + [x] && x.order == p
    ensures forall q | q != p ::
      (Unentered(t, q) <==> Unentered(s, q)) && (Entered(t, q, PendingReview) <==> Entered(s, q, PendingReview))
    ensures Entered(t, p, x.status)
    ensures Entered(t, p, PendingReview) <==> Entered(s, p, PendingReview) || x.status == PendingReview
  {
    var n := |s.ledger|;
    assert t.ledger[n] == x && forall i | 0 <= i < n :: t.ledger[i] == s.ledger[i];
    forall q, status | Entered(s, q, status)
      ensures Entered(t, q, status)
    {
      var i :| 0 <= i < n && s.ledger[i].order == q && s.ledger[i].status == status;
      assert t.ledger[i].order == q;
    }
  }

  lemma SubmitOnce(m: Machine, s: State, e: Event, o: nat)
    requires OneSubmission(s) && e.Submit? && Enabled(m, s, e)
    ensures OneSubmission(Apply(m, s, e)) && (Stale(Apply(m, s, e), o) <==> Stale(s, o))
  {
    hide Apply;
    hide Enabled;
    SubmitWrites(m, s, e);
    var t := Apply(m, s, e);
    assert Unentered(s, e.o);
    EntryAdded(s, t, e.o, t.ledger[|s.ledger|]);
    SubmittedOnce(s, t, e.o);
  }

  lemma SubmittedOnce(s: State, t: State, p: nat)
    requires OneSubmission(s) && p < |s.orders| && Unentered(s, p)
    requires |t.ledger| == |s.ledger| + 1 && (forall i | 0 <= i < |s.ledger| :: t.ledger[i] == s.ledger[i])
    requires t.ledger[|s.ledger|].order == p
    requires |t.orders| == |s.orders| && forall q | 0 <= q < |s.orders| && q != p :: t.orders[q] == s.orders[q]
    requires s.orders[p].pay == PayPending && t.orders[p].payBy == Pagomovil && t.orders[p].pay == PayInReview
    requires forall q | q != p ::
      (Unentered(t, q) <==> Unentered(s, q)) && (Entered(t, q, PendingReview) <==> Entered(s, q, PendingReview))
    requires Entered(t, p, PendingReview)
    ensures OneSubmission(t) && forall o :: Stale(t, o) <==> Stale(s, o)
  {
    hide Entered;
  }

  lemma VerifyOnce(m: Machine, s: State, e: Event, o: nat)
    requires OneSubmission(s) && e.Verify? && Enabled(m, s, e)
    ensures OneSubmission(Apply(m, s, e)) && (Stale(Apply(m, s, e), o) <==> Stale(s, o))
  {
    hide Apply;
    hide Enabled;
    hide OneSubmission;
    hide Stale;
    VerifyWrites(m, s, e);
    var decision := if e.approve then Approved else Rejected;
    var i := ReviewOne(s, e.o, decision);
    ReviewedOnce(s, Apply(m, s, e), e.o, i, decision, o);
  }

  lemma ReviewedOnce(s: State, t: State, p: nat, i: nat, decision: TrxStatus, o: nat)
    requires OneSubmission(s) && p < |s.orders| && s.orders[p].pay == PayInReview && decision != PendingReview
    requires i < |s.ledger| && s.ledger[i].order == p
    requires forall j | 0 <= j < |s.ledger| && s.ledger[j].order == p :: j == i
    requires t.ledger == s.ledger[i := s.ledger[i].(status := decision)]
    requires |t.orders| == |s.orders| && forall q | 0 <= q < |s.orders| && q != p :: t.orders[q] == s.orders[q]
    requires t.orders[p].payBy == s.orders[p].payBy
      && (t.orders[p].pay == PayApproved || t.orders[p].pay == PayRejected)
    ensures OneSubmission(t) && (Stale(t, o) <==> Stale(s, o))
  {
    assert !Entered(t, p, PendingReview);
    forall q | 0 <= q < |s.orders| && q != p
      ensures Unentered(s, q) ==> Unentered(t, q)
      ensures Entered(s, q, PendingReview) <==> Entered(t, q, PendingReview)
    {
      if Entered(s, q, PendingReview) {
        var k :| 0 <= k < |s.ledger| && s.ledger[k].order == q && s.ledger[k].status == PendingReview;
        assert t.ledger[k] == s.ledger[k];
      }
    }
  }

  // A payment at the till: of an order that is never submitted, audited or not.
  lemma ConfirmOnce(m: Machine, s: State, e: Event, o: nat)
    requires OneSubmission(s) && e.ConfirmCash? && Enabled(m, s, e)
    ensures OneSubmission(Apply(m, s, e)) && (Stale(Apply(m, s, e), o) <==> Stale(s, o))
  {
    hide Apply;
    hide Enabled;
    hide OneSubmission;
    hide Stale;
    ConfirmWrites(m, s, e);
    var t := Apply(m, s, e);
    if t.ledger == s.ledger {
      SameLedger(s, t);
    } else {
      EntryAdded(s, t, e.o, t.ledger[|s.ledger|]);
    }
    PaidOnce(s, t, e.o);
  }

  lemma PaidOnce(s: State, t: State, p: nat)
    requires OneSubmission(s) && p < |s.orders| && s.orders[p].payBy != Pagomovil
    requires |s.ledger| <= |t.ledger| && forall i | 0 <= i < |s.ledger| :: t.ledger[i] == s.ledger[i]
    requires forall i | |s.ledger| <= i < |t.ledger| :: t.ledger[i].order == p && t.ledger[i].status == Approved
    requires |t.orders| == |s.orders| && forall q | 0 <= q < |s.orders| && q != p :: t.orders[q] == s.orders[q]
    requires t.orders[p].payBy == s.orders[p].payBy && t.orders[p].pay == PayApproved
    requires forall q | q != p ::
      (Unentered(t, q) <==> Unentered(s, q)) && (Entered(t, q, PendingReview) <==> Entered(s, q, PendingReview))
    ensures OneSubmission(t) && forall o :: Stale(t, o) <==> Stale(s, o)
  {
    assert !Entered(s, p, PendingReview);
    hide Entered;
  }

  lemma ExpireOnce(m: Machine, s: State, e: Event, o: nat)
    requires OneSubmission(s) && e.Expire? && Enabled(m, s, e)
    ensures OneSubmission(Apply(m, s, e))
    ensures Stale(Apply(m, s, e), o) <==> Stale(s, o) || ExpiresInReview(m, s, e, o)
  {
    hide Apply;
    hide Enabled;
    hide OneSubmission;
    hide Stale;
    ExpireWrites(m, s, e);
    RejectedOnce(s, Apply(m, s, e), e.o);
  }

  // A rejection that leaves the ledger alone: what was under review stays there.
  lemma RejectedOnce(s: State, t: State, p: nat)
    requires OneSubmission(s) && p < |s.orders| && t.ledger == s.ledger
    requires t.orders == s.orders[p := s.orders[p].(status := Cancelled, pay := PayRejected)]
    ensures OneSubmission(t)
    ensures forall o :: Stale(t, o) <==> Stale(s, o) || (o == p && s.orders[p].pay == PayInReview)
  {
    SameLedger(s, t);
    UnderReviewOnly(s, p);
    hide Entered;
    hide Unentered;
  }

  // What is under review belongs to a payment that is under review or was rejected.
  lemma UnderReviewOnly(s: State, o: nat)
    requires OneSubmission(s) && o < |s.orders|
    ensures Entered(s, o, PendingReview) ==> s.orders[o].pay == PayInReview || s.orders[o].pay == PayRejected
  {
  }

  // Steps that write neither the ledger nor a payment.
  lemma QuietStep(s: State, t: State, o: nat)
    requires OneSubmission(s) && t.ledger == s.ledger && |s.orders| <= |t.orders|
    requires forall p | 0 <= p < |s.orders| ::
      t.orders[p].pay == s.orders[p].pay && t.orders[p].payBy == s.orders[p].payBy
    requires forall p | |s.orders| <= p < |t.orders| :: t.orders[p].pay == PayPending
    ensures OneSubmission(t) && (Stale(t, o) <==> Stale(s, o))
  {
    SameLedger(s, t);
    assert forall p | |s.orders| <= p < |t.orders| :: Unentered(s, p);
    hide Entered;
  }

  lemma QuietWrites(m: Machine, s: State, e: Event)
    requires !Enabled(m, s, e) || e.Begin? || e.Decrement? || e.Number? || e.Create? || e.Restore? || e.UpdateStatus?
    ensures var t := Apply(m, s, e);
      && t.ledger == s.ledger && |s.orders| <= |t.orders|
      && (forall p | 0 <= p < |s.orders| ::
           t.orders[p].pay == s.orders[p].pay && t.orders[p].payBy == s.orders[p].payBy)
      && (forall p | |s.orders| <= p < |t.orders| :: t.orders[p].pay == PayPending)
  {
    hide Apply;
    hide Enabled;
    if Enabled(m, s, e) && e.UpdateStatus? {
      UpdateWrites(m, s, e);
    } else if Enabled(m, s, e) && e.Create? && e.saved {
      CreateWrites(m, s, e);
    } else {
      OthersWriteNothing(m, s, e);
    }
  }

  lemma StepStaleIff(m: Machine, s: State, e: Event, o: nat)
    requires OneSubmission(s)
    ensures OneSubmission(Apply(m, s, e))
    ensures Stale(Apply(m, s, e), o) <==> Stale(s, o) || ExpiresInReview(m, s, e, o)
  {
    hide Apply;
    hide Enabled;
    hide Stale;
    hide OneSubmission;
    if Enabled(m, s, e) && e.Submit? {
      SubmitOnce(m, s, e, o);
    } else if Enabled(m, s, e) && e.Verify? {
      VerifyOnce(m, s, e, o);
    } else if Enabled(m, s, e) && e.ConfirmCash? {
      ConfirmOnce(m, s, e, o);
    } else if Enabled(m, s, e) && e.Expire? {
      ExpireOnce(m, s, e, o);
    } else {
      QuietWrites(m, s, e);
      QuietStep(s, Apply(m, s, e), o);
      assert !ExpiresInReview(m, s, e, o);
    }
  }

  /** After every run, under any machine: an order's transaction waits for review while its payment is rejected
      exactly when the sweep reached the order while its payment was under review. */
  lemma {:induction false} StaleIffExpired(m: Machine, stock: Stock, events: seq<Event>, o: nat)
    ensures OneSubmission(Run(m, Start(stock), events))
    ensures Stale(Run(m, Start(stock), events), o) <==> ExpiredInReview(m, Start(stock), events, o)
  {
    if events != [] {
      hide OneSubmission;
      hide Stale;
      hide ExpiresInReview;
      var n := |events| - 1;
      StaleIffExpired(m, stock, events[..n], o);
      StepStaleIff(m, Run(m, Start(stock), events[..n]), events[n], o);
    }
  }

  lemma SubmitThenExpire(m: Machine, s: State)
    requires DoubleRestore.Single(s, Confirmed, PayPending, 0)
    ensures Stale(Apply(m, Apply(m, s, Submit(0, 1.0, "r", 0)), Expire(0)), 0)
  {
    var t := Apply(m, s, Submit(0, 1.0, "r", 0));
    DoubleRestore.Submitted(m, s, Confirmed, 0);
    var u := Apply(m, t, Expire(0));
    var n := |s.ledger|;
    assert u.ledger[n].order == 0 && u.ledger[n].status == PendingReview;
  }

  /** The run: create, submit, expire. */
  lemma ExpiryLeavesEntry(m: Machine) returns (events: seq<Event>)
    ensures Stale(Run(m, Start(DoubleRestore.SHELF), events), 0)
  {
    var es := DoubleRestore.Opened(m);
    SubmitThenExpire(m, Run(m, Start(DoubleRestore.SHELF), es));
    hide Apply;
    es := Then(m, Start(DoubleRestore.SHELF), es, Submit(0, 1.0, "r", 0));
    events := Then(m, Start(DoubleRestore.SHELF), es, Expire(0));
  }
}
