/** Daily order numbers: one atomic counter per tenant and business date. */
module OrderNumbers {
  import opened Prelude
  import opened Orders

  function KeyOf(q: Request): CounterKey {
    CounterKey(q.tenant, q.date)
  }

  // No two calls of a tenant's day hold the same number, and none exceeds the counter.
  ghost predicate Drawn(s: State) {
    && (forall i | 0 <= i < |s.requests| && s.requests[i].number.Some? ::
          KeyOf(s.requests[i]) in s.counters && 1 <= s.requests[i].number.value <= s.counters[KeyOf(s.requests[i])])
    && (forall i, j | 0 <= i < j < |s.requests| && s.requests[i].number.Some? && s.requests[j].number.Some? ::
          KeyOf(s.requests[i]) == KeyOf(s.requests[j]) ==> s.requests[i].number != s.requests[j].number)
    && (forall i | 0 <= i < |s.requests| && s.requests[i].phase == Reserving :: s.requests[i].number.None?)
  }

  function KeyOfOrder(o: Order): CounterKey {
    CounterKey(o.tenant, o.date)
  }

  // No two orders of a tenant's day share a number.
  ghost predicate Distinct(s: State) {
    forall a, b | 0 <= a < b < |s.orders| && KeyOfOrder(s.orders[a]) == KeyOfOrder(s.orders[b])
      && s.orders[a].number.Some? ::
      s.orders[a].number != s.orders[b].number
  }

  // A number on an order was drawn by a finished call: no running call holds it and the counter has passed it.
  ghost predicate Spent(s: State) {
    && (forall a | 0 <= a < |s.orders| && s.orders[a].number.Some? ::
          KeyOfOrder(s.orders[a]) in s.counters && s.orders[a].number.value <= s.counters[KeyOfOrder(s.orders[a])])
    && (forall a, i | 0 <= a < |s.orders| && 0 <= i < |s.requests| && s.requests[i].phase == Creating ::
          KeyOfOrder(s.orders[a]) == KeyOf(s.requests[i]) && s.orders[a].number.Some? ==>
            s.orders[a].number != s.requests[i].number)
  }

  // Steps that draw no number only move their own call along.
  lemma SameNumbersDrawn(s: State, t: State)
    requires Drawn(s) && |s.requests| == |t.requests| && s.counters == t.counters
    requires forall i | 0 <= i < |s.requests| ::
      && KeyOf(t.requests[i]) == KeyOf(s.requests[i]) && t.requests[i].number == s.requests[i].number
      && (t.requests[i].phase == Reserving ==> s.requests[i].phase == Reserving)
    ensures Drawn(t)
  {
  }

  lemma DrawOne(m: Machine, s: State, r: nat, ok: bool)
    requires Drawn(s) && Enabled(m, s, Number(r, ok))
    ensures Drawn(Apply(m, s, Number(r, ok)))
  {
    var q := s.requests[r];
    var key := KeyOf(q);
    var n := (if key in s.counters then s.counters[key] else 0) + 1;
    var t := Apply(m, s, Number(r, ok));
    assert t.requests == s.requests[r := if ok then q.(phase := Creating, number := Some(n))
      else q.(phase := Creating)];
    assert forall i | 0 <= i < |s.requests| && i != r :: t.requests[i] == s.requests[i];
  }

  lemma StepDrawn(m: Machine, s: State, e: Event)
    requires Drawn(s)
    ensures Drawn(Apply(m, s, e))
  {
    if !Enabled(m, s, e) {
      assert Apply(m, s, e) == s;
    } else if e.Number? {
      DrawOne(m, s, e.r, e.counterOk);
    } else {
      StepDrawsNothing(m, s, e);
    }
    hide Apply;
    hide Enabled;
    hide Drawn;
  }

  lemma StepDrawsNothing(m: Machine, s: State, e: Event)
    requires Drawn(s) && Enabled(m, s, e) && !e.Number?
    ensures Drawn(Apply(m, s, e))
  {
    hide Apply;
    hide Enabled;
    if e.Begin? {
      RequestAdded(m, s, e);
    } else if e.Decrement? || e.Create? || e.Restore? {
      RequestMoves(m, s, e);
      SameNumbersDrawn(s, Apply(m, s, e));
    } else {
      OrderStep(m, s, e);
      SameNumbersDrawn(s, Apply(m, s, e));
    }
  }

  lemma RequestAdded(m: Machine, s: State, e: Event)
    requires Enabled(m, s, e) && e.Begin?
    ensures var t := Apply(m, s, e);
      && |t.requests| == |s.requests| + 1 && (forall i | 0 <= i < |s.requests| :: t.requests[i] == s.requests[i])
      && t.requests[|s.requests|].phase == Reserving && t.requests[|s.requests|].number.None?
      && t.counters == s.counters
  {
  }

  // A call that neither starts nor draws a number keeps its key and its number, and does not go back.
  lemma RequestMoves(m: Machine, s: State, e: Event)
    requires Enabled(m, s, e) && (e.Decrement? || e.Create? || e.Restore?)
    ensures e.r < |s.requests|
    ensures var t := Apply(m, s, e);
      && |t.requests| == |s.requests| && t.requests == s.requests[e.r := t.requests[e.r]] && t.counters == s.counters
      && KeyOf(t.requests[e.r]) == KeyOf(s.requests[e.r]) && t.requests[e.r].number == s.requests[e.r].number
      && (t.requests[e.r].phase == Reserving ==> s.requests[e.r].phase == Reserving)
      && t.requests[e.r].phase != Creating
  {
  }

  lemma OrderKeepsNumber(m: Machine, s: State, e: Event)
    requires Enabled(m, s, e) && (e.Submit? || e.Verify? || e.ConfirmCash? || e.UpdateStatus? || e.Expire?)
    ensures e.o < |s.orders|
    ensures var t := Apply(m, s, e);
      && |t.orders| == |s.orders| && t.orders == s.orders[e.o := t.orders[e.o]]
      && KeyOfOrder(t.orders[e.o]) == KeyOfOrder(s.orders[e.o]) && t.orders[e.o].number == s.orders[e.o].number
  {
    hide Apply;
    hide Enabled;
    if e.Submit? {
      SubmitWrites(m, s, e);
    } else if e.Verify? {
      VerifyWrites(m, s, e);
    } else if e.ConfirmCash? {
      ConfirmWrites(m, s, e);
    } else if e.UpdateStatus? {
      UpdateWrites(m, s, e);
    } else {
      ExpireWrites(m, s, e);
    }
  }

  lemma CreateDistinct(m: Machine, s: State, r: nat)
    requires Drawn(s) && Distinct(s) && Spent(s) && Enabled(m, s, Create(r, true))
    ensures Distinct(Apply(m, s, Create(r, true))) && Spent(Apply(m, s, Create(r, true)))
  {
    var t := Apply(m, s, Create(r, true));
    var q := s.requests[r];
    assert t.orders == s.orders + [NewOrder(q)];
    assert t.requests == s.requests[r := q.(phase := Created, held := [])];
    assert KeyOfOrder(NewOrder(q)) == KeyOf(q);
    forall i | 0 <= i < |s.requests| && t.requests[i].phase == Creating
      ensures i != r && t.requests[i] == s.requests[i]
      ensures KeyOf(s.requests[i]) == KeyOf(q) && q.number.Some? ==> s.requests[i].number != q.number
    {
      var lo, hi := if i < r then i else r, if i < r then r else i;
      assert s.requests[lo].number.Some? && s.requests[hi].number.Some? ==>
          KeyOf(s.requests[lo]) == KeyOf(s.requests[hi]) ==> s.requests[lo].number != s.requests[hi].number;
    }
  }

  lemma NumberDistinct(m: Machine, s: State, r: nat, ok: bool)
    requires Drawn(s) && Distinct(s) && Spent(s) && Enabled(m, s, Number(r, ok))
    ensures Distinct(Apply(m, s, Number(r, ok))) && Spent(Apply(m, s, Number(r, ok)))
  {
    var q := s.requests[r];
    var t := Apply(m, s, Number(r, ok));
    assert t.orders == s.orders && KeyOf(t.requests[r]) == KeyOf(q);
    forall i | 0 <= i < |s.requests| && i != r
      ensures t.requests[i] == s.requests[i]
    {
    }
  }

  lemma StepDistinct(m: Machine, s: State, e: Event)
    requires Drawn(s) && Distinct(s) && Spent(s)
    ensures Distinct(Apply(m, s, e)) && Spent(Apply(m, s, e))
  {
    var t := Apply(m, s, e);
    if !Enabled(m, s, e) {
    } else if e.Create? && e.saved {
      CreateDistinct(m, s, e.r);
    } else if e.Number? {
      NumberDistinct(m, s, e.r, e.counterOk);
    } else {
      hide Apply;
      hide Enabled;
      StepSameNumbers(m, s, e);
      SameNumbers(s, t);
    }
  }

  lemma StepSameNumbers(m: Machine, s: State, e: Event)
    requires Enabled(m, s, e) && !e.Number? && !(e.Create? && e.saved)
    ensures var t := Apply(m, s, e);
      && |s.orders| == |t.orders| && |s.requests| <= |t.requests| && s.counters == t.counters
      && (forall a | 0 <= a < |s.orders| ::
           KeyOfOrder(t.orders[a]) == KeyOfOrder(s.orders[a]) && t.orders[a].number == s.orders[a].number)
      && (forall i | 0 <= i < |s.requests| && t.requests[i].phase == Creating ::
            s.requests[i].phase == Creating && KeyOf(t.requests[i]) == KeyOf(s.requests[i])
              && t.requests[i].number == s.requests[i].number)
      && (forall i | |s.requests| <= i < |t.requests| :: t.requests[i].phase != Creating)
  {
    if e.Begin? {
      OthersWriteNothing(m, s, e);
      RequestAdded(m, s, e);
      hide Apply;
      hide Enabled;
    } else if e.Decrement? || e.Create? || e.Restore? {
      RequestMoves(m, s, e);
      OthersWriteNothing(m, s, e);
      hide Apply;
      hide Enabled;
    } else {
      OrderStep(m, s, e);
      OrderKeepsNumber(m, s, e);
      hide Apply;
      hide Enabled;
    }
  }

  // Steps that neither draw a number nor save an order leave both sides as they are.
  lemma SameNumbers(s: State, t: State)
    requires Distinct(s) && Spent(s) && |s.orders| == |t.orders| && |s.requests| <= |t.requests|
      && s.counters == t.counters
    requires forall a | 0 <= a < |s.orders| ::
      KeyOfOrder(t.orders[a]) == KeyOfOrder(s.orders[a]) && t.orders[a].number == s.orders[a].number
    requires forall i | 0 <= i < |s.requests| && t.requests[i].phase == Creating ::
      s.requests[i].phase == Creating && KeyOf(t.requests[i]) == KeyOf(s.requests[i])
        && t.requests[i].number == s.requests[i].number
    requires forall i | |s.requests| <= i < |t.requests| :: t.requests[i].phase != Creating
    ensures Distinct(t) && Spent(t)
  {
  }

  lemma {:induction false} RunNumbers(m: Machine, stock: Stock, events: seq<Event>)
    ensures var s := Run(m, Start(stock), events); Drawn(s) && Distinct(s) && Spent(s)
  {
    if events != [] {
      var n := |events| - 1;
      RunNumbers(m, stock, events[..n]);
      StepDrawn(m, Run(m, Start(stock), events[..n]), events[n]);
      StepDistinct(m, Run(m, Start(stock), events[..n]), events[n]);
    }
  }

  /** Two orders of one tenant on one business date never share a number, under every interleaving. */
  lemma NumbersDistinct(m: Machine, stock: Stock, events: seq<Event>)
    ensures Distinct(Run(m, Start(stock), events))
  {
    RunNumbers(m, stock, events);
  }
}
