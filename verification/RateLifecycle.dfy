/** A rate from the moment it is fetched or set: what is answered at every later instant. */
module RateLifecycle {
  import opened Prelude
  import opened Rates

  /** The reply holds a rate. */
  predicate Usable(u: Reply) {
    u.Answered? && u.value > 0.0
  }

  // What the upstream says to the event about the dollar, when nothing is cached.
  ghost function DollarReply(e: Event): Reply {
    match e
    case Reads(u) => u
    case ReadsAll(rs) => ReplyOf(rs, UsdBcv)
    case RefreshesAll(_, read) => ReplyOf(read, UsdBcv)
    case _ => Down
  }

  /** The event cannot replace a dollar rate that is cached until the given instant. */
  ghost predicate LeavesDollar(now: int, e: Event, until: int) {
    && !(e.Refreshes? && Usable(e.u))
    && !(e.Overrides? && ValidOverride(e.rate, e.hours))
    && (Usable(DollarReply(e)) ==> now < until)
  }

  ghost predicate AllLeaveDollar(s: Store, events: seq<Event>, until: int)
    decreases |events|
  {
    events != [] ==>
      && AllLeaveDollar(s, events[..|events| - 1], until)
      && LeavesDollar(Run(s, events[..|events| - 1]).now, events[|events| - 1], until)
  }

  // Both dollar keys as one write left them.
  ghost predicate Holds(s: Store, r: Rate, until: int, lastUntil: int) {
    && s.connected
    && BcvCurrent in s.cache && s.cache[BcvCurrent] == Entry(r, until)
    && BcvLastKnown in s.cache && s.cache[BcvLastKnown] == Entry(r, lastUntil)
  }

  lemma CurrentHolds(s: Store, u: Reply, r: Rate, until: int, lastUntil: int)
    requires Holds(s, r, until, lastUntil) && (Usable(u) ==> s.now < until)
    ensures GetCurrent(s, u).0 == s
  {
  }

  lemma MarketHolds(s: Store, c: Code, u: Reply, r: Rate, until: int, lastUntil: int)
    requires Holds(s, r, until, lastUntil) && (c == UsdBcv && Usable(u) ==> s.now < until)
    ensures var t := GetMarketRate(s, c, u).0; Holds(t, r, until, lastUntil) && t.now == s.now
  {
    if c == UsdBcv {
      CurrentHolds(s, u, r, until, lastUntil);
      hide GetCurrent;
    }
  }

  lemma {:induction false} AllHold(s: Store, codes: seq<Code>, rs: Replies, r: Rate, until: int, lastUntil: int)
    requires Holds(s, r, until, lastUntil) && (Usable(ReplyOf(rs, UsdBcv)) ==> s.now < until)
    ensures var t := GetAll(s, codes, rs).0; Holds(t, r, until, lastUntil) && t.now == s.now
  {
    if codes != [] {
      var n := |codes| - 1;
      AllHold(s, codes[..n], rs, r, until, lastUntil);
      MarketHolds(GetAll(s, codes[..n], rs).0, codes[n], ReplyOf(rs, codes[n]), r, until, lastUntil);
      hide GetMarketRate;
      hide Holds;
    }
  }

  lemma {:induction false} RefreshHolds(s: Store, codes: seq<Code>, rs: Replies, r: Rate, until: int, lastUntil: int)
    requires Holds(s, r, until, lastUntil)
    ensures var t := RefreshMarkets(s, codes, rs); Holds(t, r, until, lastUntil) && t.now == s.now
  {
    if codes != [] {
      RefreshHolds(s, codes[..|codes| - 1], rs, r, until, lastUntil);
    }
  }

  lemma StepHolds(s: Store, e: Event, r: Rate, until: int, lastUntil: int)
    requires Holds(s, r, until, lastUntil) && LeavesDollar(s.now, e, until)
    ensures Holds(Apply(s, e), r, until, lastUntil)
  {
    match e
    case Reads(u) => CurrentHolds(s, u, r, until, lastUntil);
    case ReadsAll(rs) => AllHold(s, CODES, rs, r, until, lastUntil);
    case RefreshesAll(fetched, read) =>
      RefreshHolds(s, CODES, fetched, r, until, lastUntil);
      AllHold(RefreshMarkets(s, CODES, fetched), CODES, read, r, until, lastUntil);
    case _ =>
  }

  lemma {:induction false} RunHolds(s: Store, events: seq<Event>, r: Rate, until: int, lastUntil: int)
    requires Holds(s, r, until, lastUntil) && AllLeaveDollar(s, events, until)
    ensures Holds(Run(s, events), r, until, lastUntil)
  {
    if events != [] {
      RunHolds(s, events[..|events| - 1], r, until, lastUntil);
      StepHolds(Run(s, events[..|events| - 1]), events[|events| - 1], r, until, lastUntil);
    }
  }

  // What a usable reply is stored and answered as.
  ghost function FetchedAs(u: Reply, source: Source, now: int): Rate
    requires Usable(u)
  {
    Rate(Round2(u.value), Or(u.published, now), false, source, false, now)
  }

  /** What getCurrent answers: the cached rate, else what the upstream says, else the last known rate, marked stale
      unless somebody set it, else 36 Bs. */
  ghost function Answer(r: Rate, u: Reply, now: int, until: int, lastUntil: int): Rate {
    if now < until then r
    else if Usable(u) then FetchedAs(u, Bcv, now)
    else if now < lastUntil then (if r.manualOverride then r else r.(stale := true))
    else Rate(36.0, 0, true, Fallback, false, now)
  }

  lemma HoldsAnswers(s: Store, r: Rate, until: int, lastUntil: int, u: Reply)
    requires Holds(s, r, until, lastUntil) && (r.source == Manual <==> r.manualOverride)
    ensures GetCurrent(s, u).1 == Answer(r, u, s.now, until, lastUntil)
  {
  }

  /** A rate fetched from the bank, by reading with nothing cached or by a refresh, is answered for an hour; then a
      live upstream is preferred to it; else it is answered as stale to the end of a week, and 36 Bs after that. */
  lemma FetchedLives(s: Store, e: Event, events: seq<Event>, u: Reply)
    requires s.connected && (e.Reads? || e.Refreshes?) && Usable(e.u)
    requires e.Reads? && BcvCurrent in s.cache ==> s.cache[BcvCurrent].until <= s.now
    requires AllLeaveDollar(Apply(s, e), events, s.now + 3600)
    ensures var t := Run(Apply(s, e), events);
      GetCurrent(t, u).1 == Answer(FetchedAs(e.u, Bcv, s.now), u, t.now, s.now + 3600, s.now + 604800)
  {
    var r := FetchedAs(e.u, Bcv, s.now);
    assert Holds(Apply(s, e), r, s.now + 3600, s.now + 604800);
    RunHolds(Apply(s, e), events, r, s.now + 3600, s.now + 604800);
    HoldsAnswers(Run(Apply(s, e), events), r, s.now + 3600, s.now + 604800, u);
  }

  /** A rate set by hand is answered for its hours, to the second; then a live upstream is preferred to it; else it is
      answered, and never marked stale, to the end of a week, and 36 Bs after that. */
  lemma OverrideLives(s: Store, rate: real, hours: real, events: seq<Event>, u: Reply) returns (seconds: int)
    requires s.connected && 1.0 <= rate <= 10000.0 && 1.0 <= hours <= 168.0
    ensures -0.5 <= seconds as real - hours * 3600.0 <= 0.5
    ensures var changed := Apply(s, Overrides(rate, hours)); var t := Run(changed, events);
      AllLeaveDollar(changed, events, s.now + seconds) ==>
      GetCurrent(t, u).1 ==
        Answer(Rate(Round2(rate), s.now, false, Manual, true, s.now), u, t.now, s.now + seconds, s.now + 604800)
  {
    seconds := OverrideSeconds(hours);
    OverrideTtl(hours);
    var changed := Apply(s, Overrides(rate, hours));
    var r := Rate(Round2(rate), s.now, false, Manual, true, s.now);
    assert Holds(changed, r, s.now + seconds, s.now + 604800);
    if AllLeaveDollar(changed, events, s.now + seconds) {
      RunHolds(changed, events, r, s.now + seconds, s.now + 604800);
      HoldsAnswers(Run(changed, events), r, s.now + seconds, s.now + 604800, u);
    }
  }

  /** An override out of bounds, 1 to 10000 Bs for 1 to 168 hours, changes nothing. */
  lemma OutOfBoundsIgnored(s: Store, rate: real, hours: real)
    requires !(1.0 <= rate <= 10000.0 && 1.0 <= hours <= 168.0)
    ensures Apply(s, Overrides(rate, hours)) == s
  {
  }

  /** Without Redis every answer is the upstream's or the fallback, and nothing is kept. */
  lemma {:induction false} NothingKept(now: int, events: seq<Event>, u: Reply)
    ensures var t := Run(Store(now, false, map[]), events);
      && t.cache == map[] && !t.connected
      && GetCurrent(t, u).1 ==
         if Usable(u) then FetchedAs(u, Bcv, t.now) else Rate(36.0, 0, true, Fallback, false, t.now)
  {
    if events != [] {
      var n := |events| - 1;
      NothingKept(now, events[..n], u);
      var s := Run(Store(now, false, map[]), events[..n]);
      if events[n].ReadsAll? {
        NothingKeptByAll(s, CODES, events[n].rs);
      } else if events[n].RefreshesAll? {
        NothingKeptByAll(s, CODES, events[n].fetched);
        NothingKeptByAll(s, CODES, events[n].read);
      }
    }
  }

  lemma {:induction false} NothingKeptByAll(s: Store, codes: seq<Code>, rs: Replies)
    requires !s.connected
    ensures GetAll(s, codes, rs).0 == s && RefreshMarkets(s, codes, rs) == s
  {
    if codes != [] {
      NothingKeptByAll(s, codes[..|codes| - 1], rs);
    }
  }

  // --- the other currencies ----------------------------------------------------------------------

  /** The event cannot replace a rate of another currency that is cached until the given instant. */
  ghost predicate LeavesMarket(c: Code, now: int, e: Event, until: int) {
    && (e.ReadsAll? && Usable(ReplyOf(e.rs, c)) ==> now < until)
    && (e.RefreshesAll? && Usable(ReplyOf(e.read, c)) ==> now < until)
    && (e.RefreshesAll? ==> !Usable(ReplyOf(e.fetched, c)))
  }

  ghost predicate AllLeaveMarket(c: Code, s: Store, events: seq<Event>, until: int)
    decreases |events|
  {
    events != [] ==>
      && AllLeaveMarket(c, s, events[..|events| - 1], until)
      && LeavesMarket(c, Run(s, events[..|events| - 1]).now, events[|events| - 1], until)
  }

  ghost predicate MarketKept(c: Code, s: Store, r: Rate, until: int, lastUntil: int) {
    && s.connected
    && MarketCurrent(c) in s.cache && s.cache[MarketCurrent(c)] == Entry(r, until)
    && MarketLastKnown(c) in s.cache && s.cache[MarketLastKnown(c)] == Entry(r, lastUntil)
  }

  lemma {:induction false} AllKeepMarket(c: Code, s: Store, codes: seq<Code>, rs: Replies, r: Rate, until: int,
                                         lastUntil: int)
    requires c != UsdBcv && MarketKept(c, s, r, until, lastUntil)
    ensures (Usable(ReplyOf(rs, c)) ==> s.now < until) ==>
      var t := GetAll(s, codes, rs).0; MarketKept(c, t, r, until, lastUntil) && t.now == s.now
    ensures !Usable(ReplyOf(rs, c)) ==>
      var t := RefreshMarkets(s, codes, rs); MarketKept(c, t, r, until, lastUntil) && t.now == s.now
  {
    if codes != [] {
      AllKeepMarket(c, s, codes[..|codes| - 1], rs, r, until, lastUntil);
    }
  }

  lemma StepKeepsMarket(c: Code, s: Store, e: Event, r: Rate, until: int, lastUntil: int)
    requires c != UsdBcv && MarketKept(c, s, r, until, lastUntil) && LeavesMarket(c, s.now, e, until)
    ensures MarketKept(c, Apply(s, e), r, until, lastUntil)
  {
    match e
    case ReadsAll(rs) => AllKeepMarket(c, s, CODES, rs, r, until, lastUntil);
    case RefreshesAll(fetched, read) =>
      AllKeepMarket(c, s, CODES, fetched, r, until, lastUntil);
      AllKeepMarket(c, RefreshMarkets(s, CODES, fetched), CODES, read, r, until, lastUntil);
    case _ =>
  }

  lemma {:induction false} RunKeepsMarket(c: Code, s: Store, events: seq<Event>, r: Rate, until: int, lastUntil: int)
    requires c != UsdBcv && MarketKept(c, s, r, until, lastUntil) && AllLeaveMarket(c, s, events, until)
    ensures MarketKept(c, Run(s, events), r, until, lastUntil)
  {
    if events != [] {
      RunKeepsMarket(c, s, events[..|events| - 1], r, until, lastUntil);
      StepKeepsMarket(c, Run(s, events[..|events| - 1]), events[|events| - 1], r, until, lastUntil);
    }
  }

  /** A rate of another currency that refreshAllRates fetched is answered for an hour; then a live upstream is
      preferred to it; else it is answered as stale to the end of a week, and a fixed multiple of 36 Bs after that. */
  lemma MarketLives(c: Code, s: Store, fetched: Replies, read: Replies, events: seq<Event>, u: Reply)
    requires c != UsdBcv && s.connected && Usable(ReplyOf(fetched, c))
    requires AllLeaveMarket(c, Apply(s, RefreshesAll(fetched, read)), events, s.now + 3600)
    ensures var t := Run(Apply(s, RefreshesAll(fetched, read)), events);
      var r := FetchedAs(ReplyOf(fetched, c), Upstream, s.now);
      GetMarketRate(t, c, u).1 ==
        if t.now < s.now + 3600 then r
        else if Usable(u) then FetchedAs(u, Upstream, t.now)
        else if t.now < s.now + 604800 then r.(stale := true, source := FromCache)
        else
          var factor := if c == EurBcv then 1.16 else if c == EurParalelo then 1.56 else 1.35;
          Rate(36.0 * factor, 0, true, Fallback, false, t.now)
  {
    var r := FetchedAs(ReplyOf(fetched, c), Upstream, s.now);
    var first := RefreshMarkets(s, CODES, fetched);
    MarketStored(c, s, CODES, fetched);
    AllKeepMarket(c, first, CODES, read, r, s.now + 3600, s.now + 604800);
    RunKeepsMarket(c, GetAll(first, CODES, read).0, events, r, s.now + 3600, s.now + 604800);
  }

  lemma {:induction false} MarketStored(c: Code, s: Store, codes: seq<Code>, fetched: Replies)
    requires c != UsdBcv && s.connected && Usable(ReplyOf(fetched, c))
    ensures var t := RefreshMarkets(s, codes, fetched);
      && t.now == s.now && t.connected
      && var r := FetchedAs(ReplyOf(fetched, c), Upstream, s.now);
        c in codes ==> MarketKept(c, t, r, s.now + 3600, s.now + 604800)
  {
    if codes != [] {
      MarketStored(c, s, codes[..|codes| - 1], fetched);
    }
  }

  /** The dollar of the snapshot is the current rate, with a coarser source. */
  lemma DollarIsCurrent(s: Store, u: Reply)
    ensures var a, b := GetMarketRate(s, UsdBcv, u).1, GetCurrent(s, u).1;
      && a == b.(source := a.source)
      && (b.source == Fallback ==> a.source == Fallback)
      && (b.source != Fallback ==> a.source == if b.stale then FromCache else Upstream)
  {
  }
}
