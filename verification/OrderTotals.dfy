/** What an order is charged: from the catalogue to the saved document, over every run. */
module OrderTotals {
  import opened Prelude
  import opened Orders
  import opened Pricing

  /** What a call agreed with its customer. */
  ghost function RequestTerms(q: Request): Terms {
    Terms(q.tenant, q.items, q.payBy, q.date, q.total, q.totalBs)
  }

  ghost function OrderTerms(x: Order): Terms {
    Terms(x.tenant, x.items, x.payBy, x.date, x.total, x.totalBs)
  }

  datatype Terms = Terms(
    tenant: string, items: seq<Line>, payBy: PayMethod, date: string, total: real, totalBs: real)

  /** One createOrder call computed them: its lines at the prices its catalogue showed, and that total in Bs at the
      rate of the moment, to half a cent. */
  ghost predicate ChargedBy(x: Terms, e: Event) {
    && e.Begin? && Orderable(e.cat, e.lines)
    && x.items == e.lines && x.tenant == e.tenant && x.payBy == e.payBy && x.date == e.date
    && x.total == Round2(SumReal(e.lines, l => Charge(e.cat, l)))
    && -0.005 <= x.totalBs - x.total * e.rate <= 0.005
  }

  ghost predicate Charged(x: Terms, events: seq<Event>) {
    exists e | e in events :: ChargedBy(x, e)
  }

  ghost predicate AllCharged(s: State, events: seq<Event>) {
    && (forall i | 0 <= i < |s.requests| :: Charged(RequestTerms(s.requests[i]), events))
    && (forall o | 0 <= o < |s.orders| :: Charged(OrderTerms(s.orders[o]), events))
  }

  lemma BeginRequests(m: Machine, s: State, e: Event)
    requires Enabled(m, s, e) && e.Begin?
    ensures var t := Apply(m, s, e);
      && |t.requests| == |s.requests| + 1 && (forall i | 0 <= i < |s.requests| :: t.requests[i] == s.requests[i])
      && ChargedBy(RequestTerms(t.requests[|s.requests|]), e)
  {
    PriceIsCharged(e.cat, e.lines);
    InBolivarsNear(Price(e.cat, e.lines).value, e.rate);
    hide Price;
    hide Orderable;
    hide Round2;
  }

  lemma RequestsKept(m: Machine, s: State, e: Event)
    requires Enabled(m, s, e) && (e.Decrement? || e.Number? || e.Create? || e.Restore?)
    ensures var t := Apply(m, s, e);
      && |t.requests| == |s.requests| && e.r < |s.requests| && t.requests == s.requests[e.r := t.requests[e.r]]
      && RequestTerms(t.requests[e.r]) == RequestTerms(s.requests[e.r])
  {
  }

  lemma OrdersKept(m: Machine, s: State, e: Event)
    ensures var t := Apply(m, s, e);
      && |s.orders| <= |t.orders| <= |s.orders| + 1
      && (forall o | 0 <= o < |s.orders| :: OrderTerms(t.orders[o]) == OrderTerms(s.orders[o]))
      && (|t.orders| > |s.orders| ==>
            e.Create? && e.r < |s.requests| && OrderTerms(t.orders[|s.orders|]) == RequestTerms(s.requests[e.r]))
  {
    hide Apply;
    hide Enabled;
    if Enabled(m, s, e) && e.Submit? {
      SubmitWrites(m, s, e);
    } else if Enabled(m, s, e) && e.Verify? {
      VerifyWrites(m, s, e);
    } else if Enabled(m, s, e) && e.ConfirmCash? {
      ConfirmWrites(m, s, e);
    } else if Enabled(m, s, e) && e.UpdateStatus? {
      UpdateWrites(m, s, e);
    } else if Enabled(m, s, e) && e.Expire? {
      ExpireWrites(m, s, e);
    } else if Enabled(m, s, e) && e.Create? && e.saved {
      CreateWrites(m, s, e);
    } else {
      OthersWriteNothing(m, s, e);
    }
  }

  // Requests after any step: as before, or the one that began.
  lemma RequestsCharged(m: Machine, s: State, e: Event)
    ensures var t := Apply(m, s, e);
      && |s.requests| <= |t.requests| <= |s.requests| + 1
      && (forall i | 0 <= i < |s.requests| :: RequestTerms(t.requests[i]) == RequestTerms(s.requests[i]))
      && (|t.requests| > |s.requests| ==> ChargedBy(RequestTerms(t.requests[|s.requests|]), e))
  {
    if !Enabled(m, s, e) {
      assert Apply(m, s, e) == s;
    } else if e.Begin? {
      BeginRequests(m, s, e);
    } else if e.Decrement? || e.Number? || e.Create? || e.Restore? {
      RequestsKept(m, s, e);
    } else {
      OrderStep(m, s, e);
    }
    hide Apply;
    hide Enabled;
    hide ChargedBy;
  }

  lemma StillCharged(x: Terms, events: seq<Event>, e: Event)
    ensures Charged(x, events) || ChargedBy(x, e) ==> Charged(x, events + [e])
  {
    if Charged(x, events) {
      var y :| y in events && ChargedBy(x, y);
      assert y in events + [e];
    }
    assert e in events + [e];
  }

  lemma StepCharged(m: Machine, s: State, events: seq<Event>, e: Event)
    requires AllCharged(s, events)
    ensures AllCharged(Apply(m, s, e), events + [e])
  {
    var t := Apply(m, s, e);
    OrdersKept(m, s, e);
    RequestsCharged(m, s, e);
    hide Apply;
    hide Charged;
    hide ChargedBy;
    forall i | 0 <= i < |t.requests|
      ensures Charged(RequestTerms(t.requests[i]), events + [e])
    {
      StillCharged(RequestTerms(t.requests[i]), events, e);
    }
    forall o | 0 <= o < |t.orders|
      ensures Charged(OrderTerms(t.orders[o]), events + [e])
    {
      StillCharged(OrderTerms(t.orders[o]), events, e);
    }
  }

  /** Every order of every run, whatever happens to it afterwards, carries the lines, the total and the Bs of one
      createOrder call of that run. */
  lemma {:induction false} EveryOrderCharged(m: Machine, stock: Stock, events: seq<Event>)
    ensures AllCharged(Run(m, Start(stock), events), events)
  {
    if events != [] {
      hide AllCharged;
      var n := |events| - 1;
      EveryOrderCharged(m, stock, events[..n]);
      StepCharged(m, Run(m, Start(stock), events[..n]), events[..n], events[n]);
      assert events[..n] + [events[n]] == events;
    }
  }
}
