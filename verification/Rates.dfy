/** Exchange rates behind keys that expire: cache, upstream, last known value, hard-coded fallback. */
module Rates {
  import opened Prelude

  const HOUR := 3600
  const WEEK := 604800
  const HARD_FALLBACK := 36.0

  datatype Code = UsdBcv | EurBcv | EurParalelo | Usdt

  const CODES: seq<Code> := [UsdBcv, EurBcv, EurParalelo, Usdt]

  datatype Source = Bcv | Manual | Fallback | Upstream | FromCache

  // A rate as it is stored and answered. `obtained` is not stored by the service: it remembers when the
  // value was fetched or set, while capturedAt is whatever the upstream published.
  datatype Rate = Rate(value: real, capturedAt: int, stale: bool, source: Source, manualOverride: bool, obtained: int)

  // bcv:rate:current, bcv:rate:last-known, and rates:{code}:current and :last-known.
  datatype Key = BcvCurrent | BcvLastKnown | MarketCurrent(code: Code) | MarketLastKnown(code: Code)

  datatype Entry = Entry(rate: Rate, until: int)

  // `connected` is false when no Redis is configured.
  datatype Store = Store(now: int, connected: bool, cache: map<Key, Entry>)

  // What the upstream does during one call: nothing usable, or a number and maybe a date.
  datatype Reply = Down | Answered(value: real, published: Option<int>)

  type Replies = map<Code, Reply>

  function ReplyOf(rs: Replies, c: Code): Reply {
    if c in rs then rs[c] else Down
  }

  function Get(s: Store, k: Key): Option<Rate> {
    if s.connected && k in s.cache && s.now < s.cache[k].until then Some(s.cache[k].rate) else None
  }

  // SETEX; a failing write is logged and forgotten.
  function Put(s: Store, k: Key, r: Rate, ttl: int): Store {
    if s.connected && ttl > 0 then s.(cache := s.cache[k := Entry(r, s.now + ttl)]) else s
  }

  function Fetched(u: Reply, source: Source, now: int): Option<Rate> {
    match u
    case Down => None
    case Answered(value, published) =>
      if value <= 0.0 then None
      else Some(Rate(Round2(value), if published.Some? then published.value else now, false, source, false, now))
  }

  function Remember(s: Store, current: Key, lastKnown: Key, r: Rate): Store {
    Put(Put(s, current, r, HOUR), lastKnown, r, WEEK)
  }

  function FallbackRate(value: real, now: int): Rate {
    Rate(value, 0, true, Fallback, false, now)
  }

  function GetCurrent(s: Store, u: Reply): (Store, Rate) {
    var cached := Get(s, BcvCurrent);
    if cached.Some? then (s, cached.value)
    else
      var latest := Fetched(u, Bcv, s.now);
      if latest.Some? then (Remember(s, BcvCurrent, BcvLastKnown, latest.value), latest.value)
      else
        var last := Get(s, BcvLastKnown);
        if last.None? then (s, FallbackRate(HARD_FALLBACK, s.now))
        else if last.value.source == Manual && last.value.manualOverride then (s, last.value)
        else (s, last.value.(stale := true))
  }

  function Refresh(s: Store, u: Reply): (Store, Option<Rate>) {
    var latest := Fetched(u, Bcv, s.now);
    (if latest.Some? then Remember(s, BcvCurrent, BcvLastKnown, latest.value) else s, latest)
  }

  function OverrideRate(rate: real, now: int): Rate {
    Rate(Round2(rate), now, false, Manual, true, now)
  }

  function OverrideSeconds(hours: real): int {
    JsRound(hours * 3600.0)
  }

  // What the request body is validated for: 1 to 10000 Bs, 1 to 168 hours.
  predicate ValidOverride(rate: real, hours: real) {
    1.0 <= rate <= 10000.0 && 1.0 <= hours <= 168.0
  }

  function SetManualOverride(s: Store, rate: real, hours: real): (Store, Rate) {
    var r := OverrideRate(rate, s.now);
    (Put(Put(s, BcvCurrent, r, OverrideSeconds(hours)), BcvLastKnown, r, WEEK), r)
  }

  function HardFallback(c: Code): real {
    match c
    case UsdBcv => 36.0
    case EurBcv => 36.0 * 1.16
    case EurParalelo => 36.0 * 1.56
    case Usdt => 36.0 * 1.35
  }

  // getMarketRate. The dollar reads the keys of getCurrent, and only relabels its source.
  function GetMarketRate(s: Store, c: Code, u: Reply): (Store, Rate) {
    if c == UsdBcv then
      var usd := GetCurrent(s, u);
      (usd.0, usd.1.(source := if usd.1.source == Fallback then Fallback
                               else if usd.1.stale then FromCache else Upstream))
    else
      var cached := Get(s, MarketCurrent(c));
      if cached.Some? then (s, cached.value)
      else
        var latest := Fetched(u, Upstream, s.now);
        if latest.Some? then (Remember(s, MarketCurrent(c), MarketLastKnown(c), latest.value), latest.value)
        else
          var last := Get(s, MarketLastKnown(c));
          if last.Some? then (s, last.value.(stale := true, source := FromCache))
          else (s, FallbackRate(HardFallback(c), s.now))
  }

  function GetAll(s: Store, codes: seq<Code>, rs: Replies): (Store, seq<Rate>) {
    if codes == [] then (s, [])
    else
      var before := GetAll(s, codes[..|codes| - 1], rs);
      var last := GetMarketRate(before.0, codes[|codes| - 1], ReplyOf(rs, codes[|codes| - 1]));
      (last.0, before.1 + [last.1])
  }

  function RefreshMarket(s: Store, c: Code, u: Reply): Store {
    var latest := Fetched(u, Upstream, s.now);
    if latest.Some? then Remember(s, MarketCurrent(c), MarketLastKnown(c), latest.value) else s
  }

  function RefreshMarkets(s: Store, codes: seq<Code>, rs: Replies): Store {
    if codes == [] then s
    else RefreshMarket(RefreshMarkets(s, codes[..|codes| - 1], rs), codes[|codes| - 1], ReplyOf(rs, codes[|codes| - 1]))
  }

  // refreshAllRates: fetch them all, then answer like getAllRates.
  function RefreshAll(s: Store, fetched: Replies, read: Replies): (Store, seq<Rate>) {
    GetAll(RefreshMarkets(s, CODES, fetched), CODES, read)
  }

  // --- the service -------------------------------------------------------------------

  class BcvRateService {
    const connected: bool
    var now: int
    var cache: map<Key, Entry>

    ghost function State(): Store
      reads this
    {
      Store(now, connected, cache)
    }

    constructor (connected: bool, now: int)
      ensures State() == Store(now, connected, map[])
    {
      this.connected, this.now, cache := connected, now, map[];
    }

    method SafeGet(k: Key) returns (r: Option<Rate>)
      ensures r == Get(State(), k)
    {
      r := if connected && k in cache && now < cache[k].until then Some(cache[k].rate) else None;
    }

    method SafeSet(k: Key, r: Rate, ttl: int)
      modifies this
      ensures State() == Put(old(State()), k, r, ttl)
    {
      if connected && ttl > 0 {
        cache := cache[k := Entry(r, now + ttl)];
      }
    }

    method ReadCurrent(u: Reply) returns (r: Rate)
      modifies this
      ensures (State(), r) == GetCurrent(old(State()), u)
    {
      var cached := SafeGet(BcvCurrent);
      if cached.Some? {
        return cached.value;
      }
      var latest := Fetched(u, Bcv, now);
      if latest.Some? {
        SafeSet(BcvCurrent, latest.value, HOUR);
        SafeSet(BcvLastKnown, latest.value, WEEK);
        return latest.value;
      }
      var stale := SafeGet(BcvLastKnown);
      if stale.Some? {
        if stale.value.source == Manual && stale.value.manualOverride {
          return stale.value;
        }
        return stale.value.(stale := true);
      }
      r := Rate(HARD_FALLBACK, 0, true, Fallback, false, now);
    }

    method ForceRefresh(u: Reply) returns (r: Option<Rate>)
      modifies this
      ensures (State(), r) == Refresh(old(State()), u)
    {
      r := Fetched(u, Bcv, now);
      if r.Some? {
        SafeSet(BcvCurrent, r.value, HOUR);
        SafeSet(BcvLastKnown, r.value, WEEK);
      }
    }

    method Override(rate: real, hours: real) returns (r: Rate)
      modifies this
      ensures (State(), r) == SetManualOverride(old(State()), rate, hours)
    {
      var ttlSec := JsRound(hours * 3600.0);
      r := Rate(Round2(rate), now, false, Manual, true, now);
      SafeSet(BcvCurrent, r, ttlSec);
      SafeSet(BcvLastKnown, r, WEEK);
    }

    method ReadMarket(c: Code, u: Reply) returns (r: Rate)
      modifies this
      ensures (State(), r) == GetMarketRate(old(State()), c, u)
    {
      if c == UsdBcv {
        var usd := ReadCurrent(u);
        return usd.(source := if usd.source == Fallback then Fallback else if usd.stale then FromCache else Upstream);
      }
      var cached := SafeGet(MarketCurrent(c));
      if cached.Some? {
        return cached.value;
      }
      var latest := Fetched(u, Upstream, now);
      if latest.Some? {
        SafeSet(MarketCurrent(c), latest.value, HOUR);
        SafeSet(MarketLastKnown(c), latest.value, WEEK);
        return latest.value;
      }
      var stale := SafeGet(MarketLastKnown(c));
      if stale.Some? {
        return stale.value.(stale := true, source := FromCache);
      }
      r := FallbackRate(HardFallback(c), now);
    }

    method ReadAll(rs: Replies) returns (rates: seq<Rate>)
      modifies this
      ensures (State(), rates) == GetAll(old(State()), CODES, rs)
    {
      hide GetMarketRate;
      rates := [];
      assert CODES[..0] == [];
      for i := 0 to |CODES|
        invariant (State(), rates) == GetAll(old(State()), CODES[..i], rs)
      {
        assert CODES[..i + 1][..i] == CODES[..i] && CODES[..i + 1][i] == CODES[i];
        var r := ReadMarket(CODES[i], ReplyOf(rs, CODES[i]));
        rates := rates + [r];
      }
      assert CODES[..|CODES|] == CODES;
    }

    method RefreshAllRates(fetched: Replies, read: Replies) returns (rates: seq<Rate>)
      modifies this
      ensures (State(), rates) == RefreshAll(old(State()), fetched, read)
    {
      assert CODES[..0] == [];
      for i := 0 to |CODES|
        invariant State() == RefreshMarkets(old(State()), CODES[..i], fetched)
      {
        assert CODES[..i + 1][..i] == CODES[..i] && CODES[..i + 1][i] == CODES[i];
        var latest := Fetched(ReplyOf(fetched, CODES[i]), Upstream, now);
        if latest.Some? {
          SafeSet(MarketCurrent(CODES[i]), latest.value, HOUR);
          SafeSet(MarketLastKnown(CODES[i]), latest.value, WEEK);
        }
      }
      assert CODES[..|CODES|] == CODES;
      rates := ReadAll(read);
    }
  }

  // --- runs ------------------------------------------------------------------------------

  datatype Event =
    | Reads(u: Reply) | Refreshes(u: Reply) | Overrides(rate: real, hours: real)
    | ReadsAll(rs: Replies) | RefreshesAll(fetched: Replies, read: Replies) | Passes(seconds: nat)

  function Apply(s: Store, e: Event): Store {
    match e
    case Reads(u) => GetCurrent(s, u).0
    case Refreshes(u) => Refresh(s, u).0
    case Overrides(rate, hours) => if ValidOverride(rate, hours) then SetManualOverride(s, rate, hours).0 else s
    case ReadsAll(rs) => GetAll(s, CODES, rs).0
    case RefreshesAll(fetched, read) => RefreshAll(s, fetched, read).0
    case Passes(seconds) => s.(now := s.now + seconds)
  }

  function Run(s: Store, events: seq<Event>): Store {
    if events == [] then s else Apply(Run(s, events[..|events| - 1]), events[|events| - 1])
  }

  // What an entry under a key may say, and for how long.
  ghost predicate EntryOk(k: Key, e: Entry, now: int) {
    && !e.rate.stale && e.rate.obtained <= now
    && match k
       case BcvCurrent =>
         (e.rate.source == Bcv && e.until <= e.rate.obtained + HOUR)
         || (e.rate.source == Manual && e.until <= e.rate.obtained + WEEK)
       case BcvLastKnown =>
         && e.until <= e.rate.obtained + WEEK
         && if e.rate.manualOverride then e.rate.source == Manual else e.rate.source == Bcv
       case MarketCurrent(_) => e.rate.source == Upstream && e.until <= e.rate.obtained + HOUR
       case MarketLastKnown(_) => true
  }

  ghost predicate CacheOk(s: Store) {
    forall k | k in s.cache :: EntryOk(k, s.cache[k], s.now)
  }

  lemma PutOk(s: Store, k: Key, r: Rate, ttl: int)
    requires CacheOk(s) && (ttl > 0 ==> EntryOk(k, Entry(r, s.now + ttl), s.now))
    ensures CacheOk(Put(s, k, r, ttl)) && Put(s, k, r, ttl).now == s.now && Put(s, k, r, ttl).connected == s.connected
  {
  }

  lemma OverrideTtl(hours: real)
    requires 1.0 <= hours <= 168.0
    ensures HOUR <= OverrideSeconds(hours) <= WEEK
  {
    assert 3600.0 <= hours * 3600.0 <= 604800.0;
  }

  /** An answer that is not marked stale: a bank rate fetched less than an hour ago, or a manual one set less
      than a week ago. */
  ghost predicate FreshUsd(r: Rate, now: int) {
    !r.stale ==>
      r.obtained <= now &&
      ((r.source == Bcv && now < r.obtained + HOUR) || (r.source == Manual && now < r.obtained + WEEK))
  }

  lemma GetCurrentOk(s: Store, u: Reply)
    requires CacheOk(s)
    ensures var a := GetCurrent(s, u);
      CacheOk(a.0) && FreshUsd(a.1, s.now) && a.0.now == s.now && a.0.connected == s.connected
  {
    var latest := Fetched(u, Bcv, s.now);
    if Get(s, BcvCurrent).None? && latest.Some? {
      PutOk(s, BcvCurrent, latest.value, HOUR);
      PutOk(Put(s, BcvCurrent, latest.value, HOUR), BcvLastKnown, latest.value, WEEK);
    }
  }

  ghost predicate FreshMarket(c: Code, r: Rate, now: int) {
    !r.stale ==> r.obtained <= now < r.obtained + (if c == UsdBcv then WEEK else HOUR)
  }

  lemma MarketOk(s: Store, c: Code, u: Reply)
    requires CacheOk(s)
    ensures var a := GetMarketRate(s, c, u);
      CacheOk(a.0) && FreshMarket(c, a.1, s.now) && a.0.now == s.now && a.0.connected == s.connected
  {
    if c == UsdBcv {
      GetCurrentOk(s, u);
      hide CacheOk;
    } else {
      var latest := Fetched(u, Upstream, s.now);
      if Get(s, MarketCurrent(c)).None? && latest.Some? {
        PutOk(s, MarketCurrent(c), latest.value, HOUR);
        PutOk(Put(s, MarketCurrent(c), latest.value, HOUR), MarketLastKnown(c), latest.value, WEEK);
      }
    }
  }

  lemma {:induction false} GetAllOk(s: Store, codes: seq<Code>, rs: Replies)
    requires CacheOk(s)
    ensures var a := GetAll(s, codes, rs);
      && CacheOk(a.0) && a.0.now == s.now && a.0.connected == s.connected && |a.1| == |codes|
      && forall i | 0 <= i < |codes| :: FreshMarket(codes[i], a.1[i], s.now)
  {
    hide CacheOk;
    hide FreshMarket;
    hide GetMarketRate;
    if codes != [] {
      var n := |codes| - 1;
      GetAllOk(s, codes[..n], rs);
      var before := GetAll(s, codes[..n], rs);
      MarketOk(before.0, codes[n], ReplyOf(rs, codes[n]));
    }
  }

  lemma {:induction false} RefreshMarketsOk(s: Store, codes: seq<Code>, rs: Replies)
    requires CacheOk(s)
    ensures var t := RefreshMarkets(s, codes, rs); CacheOk(t) && t.now == s.now && t.connected == s.connected
    ensures var t := RefreshMarkets(s, codes, rs);
      Get(t, BcvCurrent) == Get(s, BcvCurrent) && Get(t, BcvLastKnown) == Get(s, BcvLastKnown)
  {
    if codes != [] {
      var n := |codes| - 1;
      RefreshMarketsOk(s, codes[..n], rs);
      var t := RefreshMarkets(s, codes[..n], rs);
      var latest := Fetched(ReplyOf(rs, codes[n]), Upstream, s.now);
      if latest.Some? {
        PutOk(t, MarketCurrent(codes[n]), latest.value, HOUR);
        PutOk(Put(t, MarketCurrent(codes[n]), latest.value, HOUR), MarketLastKnown(codes[n]), latest.value, WEEK);
      }
    }
  }

  lemma StepOk(s: Store, e: Event)
    requires CacheOk(s)
    ensures CacheOk(Apply(s, e))
  {
    match e
    case Reads(u) => GetCurrentOk(s, u);
    case Refreshes(u) =>
      var latest := Fetched(u, Bcv, s.now);
      if latest.Some? {
        PutOk(s, BcvCurrent, latest.value, HOUR);
        PutOk(Put(s, BcvCurrent, latest.value, HOUR), BcvLastKnown, latest.value, WEEK);
      }
    case Overrides(rate, hours) =>
      if ValidOverride(rate, hours) {
        var r := OverrideRate(rate, s.now);
        OverrideTtl(hours);
        PutOk(s, BcvCurrent, r, OverrideSeconds(hours));
        PutOk(Put(s, BcvCurrent, r, OverrideSeconds(hours)), BcvLastKnown, r, WEEK);
      }
    case ReadsAll(rs) => GetAllOk(s, CODES, rs);
    case RefreshesAll(fetched, read) =>
      RefreshMarketsOk(s, CODES, fetched);
      GetAllOk(RefreshMarkets(s, CODES, fetched), CODES, read);
    case Passes(_) =>
  }

  lemma {:induction false} RunOk(now: int, connected: bool, events: seq<Event>)
    ensures CacheOk(Run(Store(now, connected, map[]), events))
  {
    if events != [] {
      RunOk(now, connected, events[..|events| - 1]);
      StepOk(Run(Store(now, connected, map[]), events[..|events| - 1]), events[|events| - 1]);
    }
  }

  /** After any run, whatever the upstream does, getCurrent answers, and an answer not marked stale is a bank
      rate fetched less than an hour ago or a manual rate set less than a week ago. */
  lemma AnswersAreFresh(now: int, connected: bool, events: seq<Event>, u: Reply)
    ensures var s := Run(Store(now, connected, map[]), events); FreshUsd(GetCurrent(s, u).1, s.now)
  {
    RunOk(now, connected, events);
    GetCurrentOk(Run(Store(now, connected, map[]), events), u);
  }

  /** The same for every currency of the snapshot: an hour, or a week for the dollar. */
  lemma SnapshotsAreFresh(now: int, connected: bool, events: seq<Event>, rs: Replies)
    ensures var s := Run(Store(now, connected, map[]), events); var rates := GetAll(s, CODES, rs).1;
      |rates| == |CODES| && forall i | 0 <= i < |CODES| :: FreshMarket(CODES[i], rates[i], s.now)
  {
    RunOk(now, connected, events);
    GetAllOk(Run(Store(now, connected, map[]), events), CODES, rs);
  }

  // --- a manual override holds for its whole time to live -----------------------------------

  // The override is in force until the given instant.
  ghost predicate InForce(s: Store, r: Rate, until: int) {
    s.connected && BcvCurrent in s.cache && s.cache[BcvCurrent] == Entry(r, until)
  }

  lemma {:induction false} MarketKeepsForce(s: Store, codes: seq<Code>, rs: Replies, r: Rate, until: int)
    requires InForce(s, r, until) && s.now < until
    ensures var t := GetAll(s, codes, rs).0; InForce(t, r, until) && t.now == s.now
    ensures var t := RefreshMarkets(s, codes, rs); InForce(t, r, until) && t.now == s.now
  {
    if codes != [] {
      MarketKeepsForce(s, codes[..|codes| - 1], rs, r, until);
    }
  }

  lemma StepKeepsForce(s: Store, e: Event, r: Rate, until: int)
    requires InForce(s, r, until) && s.now < until && !e.Refreshes? && !e.Overrides?
    ensures InForce(Apply(s, e), r, until)
  {
    match e
    case ReadsAll(rs) => MarketKeepsForce(s, CODES, rs, r, until);
    case RefreshesAll(fetched, read) =>
      MarketKeepsForce(s, CODES, fetched, r, until);
      MarketKeepsForce(RefreshMarkets(s, CODES, fetched), CODES, read, r, until);
    case _ =>
  }

  lemma {:induction false} RunKeepsForce(s: Store, events: seq<Event>, r: Rate, until: int)
    requires InForce(s, r, until) && Run(s, events).now < until
    requires forall e | e in events :: !e.Refreshes? && !e.Overrides?
    ensures InForce(Run(s, events), r, until)
  {
    if events != [] {
      var n := |events| - 1;
      assert events[n] in events && forall e | e in events[..n] :: e in events;
      TimePasses(Run(s, events[..n]), events[n]);
      RunKeepsForce(s, events[..n], r, until);
      StepKeepsForce(Run(s, events[..n]), events[n], r, until);
    }
  }

  lemma TimePasses(s: Store, e: Event)
    ensures s.now <= Apply(s, e).now
  {
    match e
    case ReadsAll(rs) => ClockStands(s, CODES, rs);
    case RefreshesAll(fetched, read) =>
      ClockStands(s, CODES, fetched);
      ClockStands(RefreshMarkets(s, CODES, fetched), CODES, read);
    case _ =>
  }

  lemma {:induction false} ClockStands(s: Store, codes: seq<Code>, rs: Replies)
    ensures GetAll(s, codes, rs).0.now == s.now && RefreshMarkets(s, codes, rs).now == s.now
  {
    if codes != [] {
      ClockStands(s, codes[..|codes| - 1], rs);
    }
  }

  /** A manual override is what getCurrent answers at every instant of its time to live, whatever the upstream
      does and however often all rates are read or refreshed, until a refresh or another override. */
  lemma OverrideHolds(s: Store, rate: real, hours: real, events: seq<Event>, u: Reply)
    requires s.connected && ValidOverride(rate, hours)
    requires forall e | e in events :: !e.Refreshes? && !e.Overrides?
    requires Run(SetManualOverride(s, rate, hours).0, events).now < s.now + OverrideSeconds(hours)
    ensures var t := Run(SetManualOverride(s, rate, hours).0, events);
      GetCurrent(t, u) == (t, OverrideRate(rate, s.now))
  {
    OverrideTtl(hours);
    var forced := SetManualOverride(s, rate, hours).0;
    RunKeepsForce(forced, events, OverrideRate(rate, s.now), s.now + OverrideSeconds(hours));
  }

  // --- refreshAllRates writes two keys nobody reads -------------------------------------------

  // Two stores that differ only in the market keys of the dollar.
  ghost predicate SameRead(s: Store, t: Store) {
    && s.now == t.now && s.connected == t.connected
    && forall k | k != MarketCurrent(UsdBcv) && k != MarketLastKnown(UsdBcv) ::
         (k in s.cache <==> k in t.cache) && (k in s.cache ==> s.cache[k] == t.cache[k])
  }

  lemma SameCurrent(s: Store, t: Store, u: Reply)
    requires SameRead(s, t)
    ensures GetCurrent(s, u).1 == GetCurrent(t, u).1 && SameRead(GetCurrent(s, u).0, GetCurrent(t, u).0)
  {
  }

  lemma SamePut(s: Store, t: Store, k: Key, r: Rate, ttl: int)
    requires SameRead(s, t)
    ensures SameRead(Put(s, k, r, ttl), Put(t, k, r, ttl))
    ensures k != MarketCurrent(UsdBcv) && k != MarketLastKnown(UsdBcv) ==> Get(s, k) == Get(t, k)
  {
  }

  lemma SameMarket(s: Store, t: Store, c: Code, u: Reply)
    requires SameRead(s, t)
    ensures GetMarketRate(s, c, u).1 == GetMarketRate(t, c, u).1
      && SameRead(GetMarketRate(s, c, u).0, GetMarketRate(t, c, u).0)
  {
    if c == UsdBcv {
      SameCurrent(s, t, u);
      hide GetCurrent;
      hide SameRead;
    } else {
      var latest := Fetched(u, Upstream, s.now);
      var r := if latest.Some? then latest.value else FallbackRate(0.0, 0);
      SamePut(s, t, MarketCurrent(c), r, HOUR);
      SamePut(Put(s, MarketCurrent(c), r, HOUR), Put(t, MarketCurrent(c), r, HOUR), MarketLastKnown(c), r, WEEK);
      SamePut(s, t, MarketLastKnown(c), r, WEEK);
      assert s.now == t.now;
      hide SameRead;
      hide Get;
      hide Put;
    }
  }

  lemma {:induction false} SameSnapshot(s: Store, t: Store, codes: seq<Code>, rs: Replies)
    requires SameRead(s, t)
    ensures GetAll(s, codes, rs).1 == GetAll(t, codes, rs).1 && SameRead(GetAll(s, codes, rs).0, GetAll(t, codes, rs).0)
  {
    if codes != [] {
      var n := |codes| - 1;
      SameSnapshot(s, t, codes[..n], rs);
      SameMarket(GetAll(s, codes[..n], rs).0, GetAll(t, codes[..n], rs).0, codes[n], ReplyOf(rs, codes[n]));
      hide GetMarketRate;
    }
  }

  lemma {:induction false} SameRefresh(s: Store, t: Store, codes: seq<Code>, rs: Replies)
    requires SameRead(s, t)
    ensures SameRead(RefreshMarkets(s, codes, rs), RefreshMarkets(t, codes, rs))
  {
    if codes != [] {
      var n := |codes| - 1;
      SameRefresh(s, t, codes[..n], rs);
      var a, b, c := RefreshMarkets(s, codes[..n], rs), RefreshMarkets(t, codes[..n], rs), codes[n];
      var r := Fetched(ReplyOf(rs, c), Upstream, a.now);
      assert a.now == b.now;
      if r.Some? {
        SamePut(a, b, MarketCurrent(c), r.value, HOUR);
        SamePut(Put(a, MarketCurrent(c), r.value, HOUR), Put(b, MarketCurrent(c), r.value, HOUR), MarketLastKnown(c),
                r.value, WEEK);
      }
      hide SameRead;
      hide Put;
    }
  }

  lemma SameStep(s: Store, t: Store, e: Event)
    requires SameRead(s, t)
    ensures SameRead(Apply(s, e), Apply(t, e))
  {
    match e
    case Reads(u) => SameCurrent(s, t, u);
    case Refreshes(u) =>
      var r := Fetched(u, Bcv, s.now);
      if r.Some? {
        SamePut(s, t, BcvCurrent, r.value, HOUR);
        SamePut(Put(s, BcvCurrent, r.value, HOUR), Put(t, BcvCurrent, r.value, HOUR), BcvLastKnown, r.value, WEEK);
      }
    case Overrides(rate, hours) =>
      var r, ttl := OverrideRate(rate, s.now), OverrideSeconds(hours);
      SamePut(s, t, BcvCurrent, r, ttl);
      SamePut(Put(s, BcvCurrent, r, ttl), Put(t, BcvCurrent, r, ttl), BcvLastKnown, r, WEEK);
    case ReadsAll(rs) => SameSnapshot(s, t, CODES, rs);
    case RefreshesAll(fetched, read) =>
      SameRefresh(s, t, CODES, fetched);
      SameSnapshot(RefreshMarkets(s, CODES, fetched), RefreshMarkets(t, CODES, fetched), CODES, read);
    case Passes(_) =>
  }

  lemma {:induction false} SameRun(s: Store, t: Store, events: seq<Event>)
    requires SameRead(s, t)
    ensures SameRead(Run(s, events), Run(t, events))
  {
    if events != [] {
      SameRun(s, t, events[..|events| - 1]);
      SameStep(Run(s, events[..|events| - 1]), Run(t, events[..|events| - 1]), events[|events| - 1]);
    }
  }

  /** The dollar that refreshAllRates fetches is stored under keys that no answer depends on: with and without it,
      every later run answers every read and every snapshot alike. */
  lemma DollarRefreshIsDead(s: Store, fetched: Reply, events: seq<Event>, u: Reply, rs: Replies)
    ensures var a, b := Run(s, events), Run(RefreshMarket(s, UsdBcv, fetched), events);
      GetCurrent(a, u).1 == GetCurrent(b, u).1 && GetAll(a, CODES, rs).1 == GetAll(b, CODES, rs).1
  {
    var t := RefreshMarket(s, UsdBcv, fetched);
    assert SameRead(s, t);
    SameRun(s, t, events);
    SameCurrent(Run(s, events), Run(t, events), u);
    SameSnapshot(Run(s, events), Run(t, events), CODES, rs);
  }
}
