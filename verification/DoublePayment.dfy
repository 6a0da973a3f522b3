/** Why the machine matters to the ledger: a paid order that updateStatus can bring back to
    `pending_cash` is charged twice, and one brought back to `pending_verification` expires as rejected. */
module DoublePayment {
  import opened Prelude
  import opened Orders
  import opened LedgerAgreement

  const LINE := Line("p", None, 1)
  const CATALOGUE: Catalogue := map["p" := Product(1.0, None, map[])]

  // The first createOrder call of an untracked article, ready for its next step.
  ghost predicate Opening(s: State, phase: Phase) {
    && s.stock == map[] && s.orders == [] && s.ledger == []
    && |s.requests| == 1
    && var q := s.requests[0];
      q.items == [LINE] && q.ops == [] && q.next == 0 && q.phase == phase && q.payBy == Cash
  }

  ghost predicate Charged(s: State, st: Status) {
    && s.stock == map[]
    && |s.orders| == 1 && s.orders[0].payBy == Cash && s.orders[0].pay == PayApproved && s.orders[0].status == st
    && |s.ledger| == 1 && s.ledger[0].order == 0 && s.ledger[0].status == Approved
  }

  lemma Begun(m: Machine)
    ensures Opening(Apply(m, Start(map[]), Begin("t", [LINE], CATALOGUE, Cash, 1.0, "d")), Reserving)
  {
    assert [LINE][..0] == [];
    assert PriceLines(CATALOGUE, []) == Ok(0.0);
    assert PriceLine(CATALOGUE, LINE) == Ok(1.0);
    assert PriceLines(CATALOGUE, [LINE]).Ok?;
    assert StockOps(CATALOGUE, []) == [];
    assert StockOps(CATALOGUE, [LINE]) == [];
  }

  lemma Numbered(m: Machine, s: State)
    requires Opening(s, Reserving)
    ensures Opening(Apply(m, s, Number(0, true)), Creating)
  {
  }

  lemma FirstCharge(m: Machine, s: State, auto: bool)
    requires Opening(s, Creating)
    ensures Charged(Apply(m, Apply(m, s, Create(0, true)), ConfirmCash(0, auto, true, 0)), PaidStatus(auto))
  {
    var t := Apply(m, s, Create(0, true));
    assert t.orders[0].status == PendingCash && t.orders[0].payBy == Cash;
  }

  lemma GiveBackNothing(ls: seq<Line>)
    ensures GiveBack(map[], ls) == map[]
  {
  }

  lemma Opened(m: Machine, auto: bool) returns (es: seq<Event>)
    ensures Audited(es) && Charged(Run(m, Start(map[]), es), PaidStatus(auto))
  {
    es := [];
    Begun(m);
    es := Then(m, Start(map[]), es, Begin("t", [LINE], CATALOGUE, Cash, 1.0, "d"));
    Numbered(m, Run(m, Start(map[]), es));
    es := Then(m, Start(map[]), es, Number(0, true));
    FirstCharge(m, Run(m, Start(map[]), es), auto);
    es := Then(m, Start(map[]), es, Create(0, true));
    es := Then(m, Start(map[]), es, ConfirmCash(0, auto, true, 0));
  }

  lemma {:induction false} Walked(m: Machine, es: seq<Event>, p: seq<Status>) returns (fs: seq<Event>)
    requires |p| > 0 && Path(m, p) && Audited(es) && Charged(Run(m, Start(map[]), es), p[0])
    ensures Audited(fs) && Charged(Run(m, Start(map[]), fs), p[|p| - 1])
  {
    if |p| == 1 {
      fs := es;
    } else {
      var n := |p| - 1;
      PathPrefix(m, p);
      fs := Walked(m, es, p[..n]);
      var s := Run(m, Start(map[]), fs);
      GiveBackNothing(s.orders[0].items);
      fs := Then(m, Start(map[]), fs, UpdateStatus(0, p[n]));
    }
  }

  // A second charge leaves two entries of order 0.
  lemma SecondCharge(m: Machine, s: State)
    requires Charged(s, PendingCash)
    ensures !Agrees(Apply(m, s, ConfirmCash(0, false, true, 0)))
  {
    var t := Apply(m, s, ConfirmCash(0, false, true, 0));
    assert t.ledger[0].order == t.ledger[1].order;
  }

  // Expiry rejects the payment and leaves its entry approved.
  lemma ExpiredCharge(m: Machine, s: State)
    requires Charged(s, PendingVerification)
    ensures !Agrees(Apply(m, s, Expire(0)))
  {
    var t := Apply(m, s, Expire(0));
    assert t.ledger == s.ledger && Entered(t, 0, Approved);
  }

  lemma ChargedTwice(m: Machine, auto: bool, end: Status)
    requires end == PendingCash || end == PendingVerification
    requires Reach(m, PaidStatus(auto), end)
    ensures exists events :: Audited(events) && !Agrees(Run(m, Start(map[]), events))
  {
    var p :| |p| > 0 && p[0] == PaidStatus(auto) && p[|p| - 1] == end && Path(m, p);
    var es := Opened(m, auto);
    es := Walked(m, es, p);
    if end == PendingCash {
      SecondCharge(m, Run(m, Start(map[]), es));
      es := Then(m, Start(map[]), es, ConfirmCash(0, false, true, 0));
    } else {
      ExpiredCharge(m, Run(m, Start(map[]), es));
      es := Then(m, Start(map[]), es, Expire(0));
    }
  }

  /** Exactly which machines keep ledger and orders in agreement over every audited run. */
  lemma AgreesIffPaysOnce(m: Machine)
    ensures (forall stock: Stock, events | Audited(events) :: Agrees(Run(m, Start(stock), events))) <==> !PaysTwice(m)
  {
    if PaysTwice(m) {
      var auto := !(Reach(m, Paid, PendingCash) || Reach(m, Paid, PendingVerification));
      ChargedTwice(m, auto, if Reach(m, PaidStatus(auto), PendingCash) then PendingCash else PendingVerification);
    } else {
      forall stock: Stock, events | Audited(events) {
        LedgerAgrees(m, stock, events);
      }
    }
  }
}
