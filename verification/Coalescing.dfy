/** One browser tab and the session server together, command by command: the tab never presents a replaced refresh. */
module Coalescing {
  import opened Prelude
  import opened Sessions
  import opened Rotations
  import opened ApiClient

  // `call` is the position of the refresh in flight among the calls of the server. `own` are the sessions this
  // tab has logged in to.
  datatype World = World(server: System, tab: Tab, call: nat, own: set<nat>)

  datatype Event =
    | Ask(auth: bool) | Answer(i: nat, unauthorized: bool) | RefreshBack | SettleFlight | WakeUp(i: nat)
    | TabLogin | TabLogout
    | ServerCommand(i: nat) | OtherStart(r: nat, logout: bool) | OtherLogin | Pass(seconds: nat)

  function Opening(now: int): World {
    World(System(Empty(now), []), Fresh(), 0, {})
  }

  // What the browser makes of the answer: the new pair, or nothing for any refusal.
  function Granted(c: Call): Option<Pair> {
    if c.Finished? && c.answer.Some? && c.answer.value.Ok? then Some(c.answer.value.value) else None
  }

  function Happen(ttl: Ttl, w: World, e: Event): World {
    match e
    case Ask(auth) => w.(tab := Issue(w.tab, auth))
    case Answer(i, unauthorized) =>
      var tab := Reply(w.tab, i, unauthorized);
      if StartsRefresh(w.tab, i, unauthorized)
      then w.(tab := tab, server := w.server.(calls := w.server.calls + [Looking(w.tab.refresh.value, false)]),
              call := |w.server.calls|)
      else w.(tab := tab)
    case RefreshBack =>
      if w.call < |w.server.calls| && w.server.calls[w.call].Finished?
      then w.(tab := RefreshAnswer(w.tab, Granted(w.server.calls[w.call]))) else w
    case SettleFlight => w.(tab := Settle(w.tab))
    case WakeUp(i) => w.(tab := Resume(w.tab, i))
    case TabLogin =>
      var db := w.server.db;
      w.(server := w.server.(db := Login(ttl, db)), own := w.own + {db.sessions},
         tab := WithTokens(w.tab, Pair(|db.issued|, |db.minted|, db.sessions)))
    case TabLogout =>
      if w.tab.flight.None? && w.tab.refresh.Some?
      then w.(server := w.server.(db := Revoke(ttl, w.server.db, w.tab.refresh.value)), tab := Cleared(w.tab))
      else w
    case ServerCommand(i) => w.(server := Do(ttl, w.server, Proceed(i)))
    case OtherStart(r, logout) =>
      if r < |w.server.db.minted| && w.server.db.minted[r] !in w.own
      then w.(server := Do(ttl, w.server, Start(r, logout))) else w
    case OtherLogin => w.(server := Do(ttl, w.server, NewLogin))
    case Pass(seconds) => w.(server := Do(ttl, w.server, Rotations.Wait(seconds)))
  }

  function History(ttl: Ttl, w: World, events: seq<Event>): World {
    if events == [] then w else Happen(ttl, History(ttl, w, events[..|events| - 1]), events[|events| - 1])
  }

  // --- the invariant ------------------------------------------------------------------------

  ghost predicate Names(ttl: Ttl, db: Auth) {
    && (forall r | r in db.lookups :: r < |db.minted| && db.lookups[r].family == db.minted[r])
    && (forall f | f in db.families :: f < db.sessions && db.families[f].refresh < |db.minted|
                                       && db.minted[db.families[f].refresh] == f)
    && (forall r | 0 <= r < |db.minted| :: db.minted[r] < db.sessions)
    && (ttl.refresh == 0 ==> db.families == map[] && db.lookups == map[])
  }

  // A live session of the tab can be looked up by its current refresh for as long as it lives.
  ghost predicate Findable(db: Auth, own: set<nat>) {
    forall f | f in own :: f < db.sessions &&
      (LiveFamily(db, f) ==> db.families[f].refresh in db.lookups
                             && db.lookups[db.families[f].refresh].until == db.families[f].until)
  }

  // The session of this refresh, where it is still on record, names it as its current one.
  ghost predicate Good(db: Auth, r: nat) {
    r < |db.minted| && (db.minted[r] in db.families ==> db.families[db.minted[r]].refresh == r)
  }

  // A call on somebody else's session.
  ghost predicate Foreign(db: Auth, own: set<nat>, c: Call) {
    match c
    case Looking(r, _) => r < |db.minted| && db.minted[r] !in own
    case Reading(r, f) => r < |db.minted| && db.minted[r] == f && f !in own
    case Closing(r) => r < |db.minted| && db.minted[r] !in own
    case Accepting(r, f, _) => r < |db.minted| && db.minted[r] == f && f !in own
    case Minting(r, f) => r < |db.minted| && db.minted[r] == f && f !in own
    case Forgetting(r, _) => r < |db.minted| && db.minted[r] !in own
    case Rereading(f, _) => f < db.sessions && f !in own
    case Blacklisting(f, meta, _) =>
      f < db.sessions && f !in own && meta.refresh < |db.minted| && db.minted[meta.refresh] == f
    case DroppingLookup(f, refresh, _) =>
      f < db.sessions && f !in own && refresh < |db.minted| && db.minted[refresh] == f
    case DroppingFamily(f, _) => f < db.sessions && f !in own
    case Finished(_) => true
  }

  // Where the tab's own refresh of token r can be. None of its places is in revokeFamily.
  ghost predicate OnItsWay(ttl: Ttl, db: Auth, r: nat, c: Call) {
    && r < |db.minted|
    && var f := db.minted[r];
      match c
      case Looking(t, logout) => t == r && !logout && Good(db, r)
      case Reading(t, g) => t == r && g == f && Good(db, r) && ttl.refresh > 0
      case Accepting(t, g, _) => t == r && g == f && Good(db, r) && ttl.refresh > 0
      case Minting(t, g) => t == r && g == f && Good(db, r) && ttl.refresh > 0
      case Forgetting(t, pair) => t == r && Renewed(db, f, r, pair.refresh)
      case Closing(t) => t == r && Good(db, r) && !LiveFamily(db, f)
      case Finished(_) =>
        if Granted(c).Some? then Renewed(db, f, r, Granted(c).value.refresh) else Good(db, r) && !LiveFamily(db, f)
      case _ => false
  }

  ghost predicate Renewed(db: Auth, f: nat, old_: nat, new_: nat) {
    new_ != old_ && new_ < |db.minted| && db.minted[new_] == f && Good(db, new_)
  }

  ghost predicate FlightOk(ttl: Ttl, w: World) {
    w.tab.flight.Some? ==>
      && w.call < |w.server.calls|
      && w.tab.flight.value.token < |w.server.db.minted| && w.server.db.minted[w.tab.flight.value.token] in w.own
      && (w.tab.flight.value.outcome.None? ==>
            OnItsWay(ttl, w.server.db, w.tab.flight.value.token, w.server.calls[w.call]))
      && (w.tab.flight.value.outcome.Some? ==> w.server.calls[w.call].Finished?)
  }

  // The refresh the tab would present next: its session's current one, or the one in flight.
  ghost predicate StoreOk(w: World) {
    w.tab.refresh.Some? ==>
      var r, db := w.tab.refresh.value, w.server.db;
      && r < |db.minted| && db.minted[r] in w.own
      && if w.tab.flight.Some? && w.tab.flight.value.outcome.None? then
           r == w.tab.flight.value.token ||
           (Good(db, r) && w.tab.flight.value.token < |db.minted|
            && db.minted[r] != db.minted[w.tab.flight.value.token])
         else Good(db, r)
  }

  ghost predicate OthersForeign(w: World) {
    forall i | 0 <= i < |w.server.calls| && !(w.tab.flight.Some? && i == w.call) ::
      Foreign(w.server.db, w.own, w.server.calls[i])
  }

  ghost predicate Sound(ttl: Ttl, w: World) {
    && Names(ttl, w.server.db) && Findable(w.server.db, w.own)
    && FlightOk(ttl, w) && StoreOk(w) && OthersForeign(w)
  }

  // --- steps of the server that leave the tab's sessions alone ---------------------------------

  ghost predicate Aside(s: Auth, t: Auth, own: set<nat>) {
    && s.now <= t.now && s.sessions <= t.sessions && |s.minted| <= |t.minted|
    && (forall r | 0 <= r < |s.minted| :: t.minted[r] == s.minted[r])
    && (forall f | f in own ::
         (f in t.families <==> f in s.families) && (f in s.families ==> t.families[f] == s.families[f]))
    && (forall r | 0 <= r < |s.minted| && s.minted[r] in own ::
          (r in t.lookups <==> r in s.lookups) && (r in s.lookups ==> t.lookups[r] == s.lookups[r]))
  }

  ghost predicate Grown(s: Auth, t: Auth) {
    && s.sessions <= t.sessions && |s.minted| <= |t.minted|
    && forall r | 0 <= r < |s.minted| :: t.minted[r] == s.minted[r]
  }

  lemma AsideCall(s: Auth, t: Auth, own: set<nat>, c: Call)
    requires Grown(s, t) && Foreign(s, own, c)
    ensures Foreign(t, own, c)
  {
  }

  lemma AsideFlight(ttl: Ttl, s: Auth, t: Auth, own: set<nat>, r: nat, c: Call)
    requires Aside(s, t, own) && OnItsWay(ttl, s, r, c) && s.minted[r] in own
    ensures OnItsWay(ttl, t, r, c)
  {
  }

  lemma AsideFindable(ttl: Ttl, s: Auth, t: Auth, own: set<nat>)
    requires Aside(s, t, own) && Findable(s, own) && Names(ttl, s)
    ensures Findable(t, own)
  {
  }

  lemma AsideWorld(ttl: Ttl, w: World, db: Auth)
    requires Sound(ttl, w) && Aside(w.server.db, db, w.own) && Names(ttl, db)
    ensures Sound(ttl, w.(server := w.server.(db := db)))
  {
    var v := w.(server := w.server.(db := db));
    AsideFindable(ttl, w.server.db, db, w.own);
    forall i | 0 <= i < |w.server.calls| && !(w.tab.flight.Some? && i == w.call)
      ensures Foreign(db, w.own, w.server.calls[i])
    {
      AsideCall(w.server.db, db, w.own, w.server.calls[i]);
    }
    if w.tab.flight.Some? && w.tab.flight.value.outcome.None? {
      AsideFlight(ttl, w.server.db, db, w.own, w.tab.flight.value.token, w.server.calls[w.call]);
    }
    assert StoreOk(v);
    hide Names;
    hide Findable;
    hide Foreign;
    hide OnItsWay;
  }

  lemma ForeignMint(ttl: Ttl, db: Auth, own: set<nat>, f: nat)
    requires Names(ttl, db) && f < db.sessions && f !in own && ttl.refresh > 0
    ensures var t := Mint(ttl, db, f); Names(ttl, t) && Aside(db, t, own)
  {
  }

  lemma MintWithoutLifetime(ttl: Ttl, db: Auth, own: set<nat>, f: nat)
    requires Names(ttl, db) && f < db.sessions
    ensures var t := Mint(ttl, db, f); Grown(db, t) && (ttl.refresh == 0 ==> Names(ttl, t) && Aside(db, t, own))
  {
  }

  lemma ForeignRead(ttl: Ttl, db: Auth, own: set<nat>, c: Call)
    requires Names(ttl, db) && Foreign(db, own, c) && (c.Looking? || c.Reading? || c.Rereading? || c.Finished?)
    ensures var next := Advance(ttl, db, c); next.0 == db && Foreign(db, own, next.1)
  {
  }

  lemma ForeignWrite(ttl: Ttl, db: Auth, own: set<nat>, c: Call)
    requires Names(ttl, db) && Foreign(db, own, c)
      && !(c.Looking? || c.Reading? || c.Rereading? || c.Finished? || c.Minting?)
    ensures var next := Advance(ttl, db, c);
      Names(ttl, next.0) && Aside(db, next.0, own) && Foreign(next.0, own, next.1)
  {
  }

  // One command of somebody else's call.
  lemma ForeignCommand(ttl: Ttl, db: Auth, own: set<nat>, c: Call)
    requires Names(ttl, db) && Foreign(db, own, c)
    ensures var next := Advance(ttl, db, c);
      Names(ttl, next.0) && Aside(db, next.0, own) && Foreign(next.0, own, next.1)
  {
    if c.Minting? {
      assert c.f < db.sessions;
      MintWithoutLifetime(ttl, db, own, c.f);
      if ttl.refresh > 0 {
        ForeignMint(ttl, db, own, c.f);
      }
      AsideCall(db, Mint(ttl, db, c.f), own, c);
      hide Names;
      hide Aside;
      hide Mint;
    } else if c.Looking? || c.Reading? || c.Rereading? || c.Finished? {
      ForeignRead(ttl, db, own, c);
      hide Names;
      hide Foreign;
    } else {
      ForeignWrite(ttl, db, own, c);
    }
  }

  // --- the tab's own refresh ---------------------------------------------------------------------

  /** A live session with this current refresh is found by it. */
  lemma GoodIsFound(ttl: Ttl, db: Auth, own: set<nat>, r: nat)
    requires Names(ttl, db) && Findable(db, own) && Good(db, r) && db.minted[r] in own && LiveFamily(db, db.minted[r])
    ensures LiveLookup(db, r)
  {
  }

  lemma OwnMint(ttl: Ttl, db: Auth, own: set<nat>, r: nat, f: nat)
    requires Names(ttl, db) && Findable(db, own) && Good(db, r) && db.minted[r] == f && f in own && ttl.refresh > 0
    ensures var t := Mint(ttl, db, f);
      Renewed(t, f, r, |db.minted|) && Names(ttl, t) && Findable(t, own) && Aside(db, t, own - {f})
  {
  }

  lemma OwnRead(ttl: Ttl, db: Auth, own: set<nat>, r: nat, c: Call)
    requires Names(ttl, db) && Findable(db, own) && OnItsWay(ttl, db, r, c) && db.minted[r] in own
    requires c.Looking? || c.Reading? || c.Finished?
    ensures var next := Advance(ttl, db, c); next.0 == db && OnItsWay(ttl, db, r, next.1)
  {
    if c.Looking? && LiveFamily(db, db.minted[r]) {
      GoodIsFound(ttl, db, own, r);
    }
  }

  lemma OwnDrop(ttl: Ttl, db: Auth, own: set<nat>, r: nat, c: Call)
    requires Names(ttl, db) && Findable(db, own) && OnItsWay(ttl, db, r, c) && db.minted[r] in own
    requires c.Closing? || c.Forgetting?
    ensures var next := Advance(ttl, db, c);
      OnItsWay(ttl, next.0, r, next.1) && Names(ttl, next.0) && Findable(next.0, own)
    ensures var t := Advance(ttl, db, c).0; Aside(db, t, own - {db.minted[r]})
  {
  }

  lemma OwnCommand(ttl: Ttl, db: Auth, own: set<nat>, r: nat, c: Call)
    requires Names(ttl, db) && Findable(db, own) && OnItsWay(ttl, db, r, c) && db.minted[r] in own
    ensures var next := Advance(ttl, db, c);
      OnItsWay(ttl, next.0, r, next.1) && Names(ttl, next.0) && Findable(next.0, own)
    ensures var t := Advance(ttl, db, c).0; Aside(db, t, own - {db.minted[r]})
  {
    if c.Minting? {
      OwnMint(ttl, db, own, r, c.f);
    } else if c.Closing? || c.Forgetting? {
      OwnDrop(ttl, db, own, r, c);
      hide OnItsWay;
    } else if c.Accepting? {
      hide Renewed;
    } else {
      OwnRead(ttl, db, own, r, c);
    }
    hide Names;
    hide Findable;
  }

  lemma OwnStep(ttl: Ttl, w: World)
    requires Sound(ttl, w) && w.tab.flight.Some? && w.tab.flight.value.outcome.None?
    ensures Sound(ttl, Happen(ttl, w, ServerCommand(w.call)))
  {
    var v := Happen(ttl, w, ServerCommand(w.call));
    var r := w.tab.flight.value.token;
    var s, t := w.server.db, v.server.db;
    OwnCommand(ttl, s, w.own, r, w.server.calls[w.call]);
    forall i | 0 <= i < |w.server.calls| && i != w.call
      ensures Foreign(t, w.own, v.server.calls[i])
    {
      AsideCall(s, t, w.own, w.server.calls[i]);
    }
    hide Names;
    hide Findable;
    hide Foreign;
    hide OnItsWay;
    hide Advance;
  }

  lemma ForeignStep(ttl: Ttl, w: World, i: nat)
    requires Sound(ttl, w) && i < |w.server.calls| && !(w.tab.flight.Some? && i == w.call)
    ensures Sound(ttl, Happen(ttl, w, ServerCommand(i)))
  {
    var c := w.server.calls[i];
    var next := Advance(ttl, w.server.db, c);
    ForeignCommand(ttl, w.server.db, w.own, c);
    AsideWorld(ttl, w, next.0);
    var v := w.(server := System(next.0, w.server.calls[i := next.1]));
    assert Happen(ttl, w, ServerCommand(i)) == v;
    hide Names;
    hide Findable;
    hide Foreign;
    hide OnItsWay;
    hide Advance;
    hide Good;
    forall k | 0 <= k < |v.server.calls| && !(v.tab.flight.Some? && k == v.call)
      ensures Foreign(v.server.db, v.own, v.server.calls[k])
    {
    }
  }

  lemma CommandKeeps(ttl: Ttl, w: World, i: nat)
    requires Sound(ttl, w)
    ensures Sound(ttl, Happen(ttl, w, ServerCommand(i)))
  {
    if i < |w.server.calls| {
      if !(w.tab.flight.Some? && i == w.call) {
        ForeignStep(ttl, w, i);
      } else if w.tab.flight.value.outcome.None? {
        OwnStep(ttl, w);
      } else {
        assert w.server.calls[i := w.server.calls[i]] == w.server.calls;
        assert Happen(ttl, w, ServerCommand(i)) == w;
      }
    } else {
      assert Happen(ttl, w, ServerCommand(i)) == w;
    }
  }

  // --- the browser's own steps ---------------------------------------------------------------------

  lemma AnswerKeeps(ttl: Ttl, w: World, i: nat, unauthorized: bool)
    requires Sound(ttl, w)
    ensures Sound(ttl, Happen(ttl, w, Answer(i, unauthorized)))
  {
    hide Names;
    hide Findable;
    hide Foreign;
    var v := Happen(ttl, w, Answer(i, unauthorized));
    assert v.tab.refresh == w.tab.refresh || v.tab.refresh == None;
    assert v.server.db == w.server.db && v.own == w.own;
    if StartsRefresh(w.tab, i, unauthorized) {
      assert v.tab.flight == Some(Flight(w.tab.refresh.value, None)) && v.tab.refresh == w.tab.refresh;
    } else {
      assert v.tab.flight == w.tab.flight && v.server == w.server && v.call == w.call;
    }
    hide Good;
  }

  lemma RefreshBackKeeps(ttl: Ttl, w: World)
    requires Sound(ttl, w)
    ensures Sound(ttl, Happen(ttl, w, RefreshBack))
  {
    hide Names;
    hide Findable;
    hide Foreign;
  }

  lemma FlightEnds(ttl: Ttl, w: World)
    requires Sound(ttl, w)
    ensures Sound(ttl, Happen(ttl, w, SettleFlight))
  {
    var v := Happen(ttl, w, SettleFlight);
    assert w.tab.flight.Some? && w.tab.flight.value.outcome.Some?
      ==> Foreign(w.server.db, w.own, w.server.calls[w.call]);
    hide Names;
    hide Findable;
    hide Foreign;
    hide Good;
    hide OnItsWay;
  }

  lemma TabStepKeeps(ttl: Ttl, w: World, e: Event)
    requires Sound(ttl, w) && (e.Ask? || e.WakeUp?)
    ensures Sound(ttl, Happen(ttl, w, e))
  {
    var v := Happen(ttl, w, e);
    assert v.tab.refresh == w.tab.refresh || v.tab.refresh == None;
    assert v.tab.flight == w.tab.flight;
    assert v.server == w.server && v.own == w.own && v.call == w.call;
    hide Names;
    hide Findable;
    hide Foreign;
    hide Good;
    hide OnItsWay;
    hide Happen;
  }

  // --- logins, logout, other people ----------------------------------------------------------------

  lemma LoginAside(ttl: Ttl, db: Auth, own: set<nat>)
    requires Names(ttl, db) && Findable(db, own)
    ensures var t := Login(ttl, db);
      && Names(ttl, t) && Aside(db, t, own) && Findable(t, own + {db.sessions})
      && |db.minted| < |t.minted| && t.minted[|db.minted|] == db.sessions && Good(t, |db.minted|)
  {
    assert forall r | r in db.lookups :: r < |db.minted|;
  }

  // A session that did not exist before is on nobody's mind yet.
  lemma NewOwn(ttl: Ttl, s: Auth, own: set<nat>, c: Call)
    requires Names(ttl, s) && Foreign(s, own, c)
    ensures Foreign(Login(ttl, s), own + {s.sessions}, c)
  {
  }

  lemma TabLoginKeeps(ttl: Ttl, w: World)
    requires Sound(ttl, w)
    ensures Sound(ttl, Happen(ttl, w, TabLogin))
  {
    var v := Happen(ttl, w, TabLogin);
    var s, t := w.server.db, Login(ttl, w.server.db);
    LoginAside(ttl, s, w.own);
    AsideWorld(ttl, w, t);
    forall i | 0 <= i < |w.server.calls| && !(w.tab.flight.Some? && i == w.call)
      ensures Foreign(t, v.own, w.server.calls[i])
    {
      NewOwn(ttl, s, w.own, w.server.calls[i]);
    }
    assert w.tab.flight.Some? ==> s.minted[w.tab.flight.value.token] < s.sessions;
    hide Names;
    hide Findable;
    hide Foreign;
    hide Good;
    hide OnItsWay;
    hide Login;
  }

  lemma RevokeOwn(ttl: Ttl, db: Auth, own: set<nat>, r: nat)
    requires Names(ttl, db) && Findable(db, own)
    ensures var t := Revoke(ttl, db, r); Names(ttl, t) && Findable(t, own) && Grown(db, t)
  {
    if LiveLookup(db, r) {
      var f := db.lookups[r].family;
      var t := Revoke(ttl, db, r);
      forall g | g in own && LiveFamily(t, g)
        ensures t.families[g].refresh in t.lookups && t.lookups[t.families[g].refresh].until == t.families[g].until
      {
        assert g != f && LiveFamily(db, g);
      }
    }
  }

  lemma TabLogoutKeeps(ttl: Ttl, w: World)
    requires Sound(ttl, w)
    ensures Sound(ttl, Happen(ttl, w, TabLogout))
  {
    if w.tab.flight.None? && w.tab.refresh.Some? {
      var t := Revoke(ttl, w.server.db, w.tab.refresh.value);
      RevokeOwn(ttl, w.server.db, w.own, w.tab.refresh.value);
      forall i | 0 <= i < |w.server.calls|
        ensures Foreign(t, w.own, w.server.calls[i])
      {
        AsideCall(w.server.db, t, w.own, w.server.calls[i]);
      }
      hide Names;
      hide Findable;
      hide Foreign;
      hide Good;
      hide OnItsWay;
      hide Revoke;
    }
  }

  lemma OtherStartKeeps(ttl: Ttl, w: World, r: nat, logout: bool)
    requires Sound(ttl, w)
    ensures Sound(ttl, Happen(ttl, w, OtherStart(r, logout)))
  {
    hide Names;
    hide Findable;
    hide Good;
    hide OnItsWay;
  }

  lemma ClockKeeps(ttl: Ttl, w: World, seconds: nat)
    requires Sound(ttl, w)
    ensures Sound(ttl, Happen(ttl, w, Pass(seconds)))
  {
    var db := w.server.db.(now := w.server.db.now + seconds);
    assert Names(ttl, db) && Aside(w.server.db, db, w.own);
    hide Sound;
    AsideWorld(ttl, w, db);
  }

  lemma OthersKeep(ttl: Ttl, w: World, e: Event)
    requires Sound(ttl, w) && (e.OtherStart? || e.OtherLogin? || e.Pass?)
    ensures Sound(ttl, Happen(ttl, w, e))
  {
    match e
    case OtherStart(r, logout) => OtherStartKeeps(ttl, w, r, logout);
    case OtherLogin =>
      LoginAside(ttl, w.server.db, w.own);
      AsideWorld(ttl, w, Login(ttl, w.server.db));
      hide Sound;
      hide Names;
      hide Findable;
      hide Aside;
    case Pass(seconds) => ClockKeeps(ttl, w, seconds);
  }

  lemma StepKeepsSound(ttl: Ttl, w: World, e: Event)
    requires Sound(ttl, w)
    ensures Sound(ttl, Happen(ttl, w, e))
  {
    hide Sound;
    match e
    case Ask(_) => TabStepKeeps(ttl, w, e);
    case Answer(i, unauthorized) => AnswerKeeps(ttl, w, i, unauthorized);
    case RefreshBack => RefreshBackKeeps(ttl, w);
    case SettleFlight => FlightEnds(ttl, w);
    case WakeUp(_) => TabStepKeeps(ttl, w, e);
    case TabLogin => TabLoginKeeps(ttl, w);
    case TabLogout => TabLogoutKeeps(ttl, w);
    case ServerCommand(i) => CommandKeeps(ttl, w, i);
    case _ => OthersKeep(ttl, w, e);
  }

  lemma {:induction false} HistorySound(ttl: Ttl, now: int, events: seq<Event>)
    ensures Sound(ttl, History(ttl, Opening(now), events))
  {
    if events != [] {
      hide Sound;
      HistorySound(ttl, now, events[..|events| - 1]);
      StepKeepsSound(ttl, History(ttl, Opening(now), events[..|events| - 1]), events[|events| - 1]);
    }
  }

  // --- main results -----------------------------------------------------------------------------------

  // The session a call is busy with.
  function BusyWith(db: Auth, c: Call): Option<nat> {
    match c
    case Looking(r, _) => if r < |db.minted| then Some(db.minted[r]) else None
    case Closing(r) => if r < |db.minted| then Some(db.minted[r]) else None
    case Forgetting(r, _) => if r < |db.minted| then Some(db.minted[r]) else None
    case Reading(_, f) => Some(f)
    case Accepting(_, f, _) => Some(f)
    case Minting(_, f) => Some(f)
    case Rereading(f, _) => Some(f)
    case Blacklisting(f, _, _) => Some(f)
    case DroppingLookup(f, _, _) => Some(f)
    case DroppingFamily(f, _) => Some(f)
    case Finished(_) => None
  }

  ghost predicate BusyWithOwn(w: World, i: nat)
    requires i < |w.server.calls|
  {
    BusyWith(w.server.db, w.server.calls[i]).Some? && BusyWith(w.server.db, w.server.calls[i]).value in w.own
  }

  /** However the tab's requests fail and the server's commands interleave, the tab has at most one refresh
      in flight. */
  lemma OneRefreshInFlight(ttl: Ttl, now: int, events: seq<Event>, i: nat, k: nat)
    requires var w := History(ttl, Opening(now), events);
      i < |w.server.calls| && k < |w.server.calls| && BusyWithOwn(w, i) && BusyWithOwn(w, k)
    ensures i == k
  {
    hide History;
    HistorySound(ttl, now, events);
    var w := History(ttl, Opening(now), events);
    assert forall j | j == i || j == k :: !Foreign(w.server.db, w.own, w.server.calls[j]);
  }

  /** Whenever the tab posts a refresh, its session, if still on record, names exactly that token. */
  lemma PostsTheCurrentOne(ttl: Ttl, now: int, events: seq<Event>, i: nat)
    requires var w := History(ttl, Opening(now), events); StartsRefresh(w.tab, i, true)
    ensures var w := History(ttl, Opening(now), events);
      Good(w.server.db, w.tab.refresh.value) && w.server.db.minted[w.tab.refresh.value] in w.own
  {
    hide History;
    HistorySound(ttl, now, events);
  }

  /** The tab's refresh never ends in the reuse branch, and it is refused only when the session it presents
      is over on the server: expired or closed. */
  lemma NeverSuspected(ttl: Ttl, now: int, events: seq<Event>)
    requires var w := History(ttl, Opening(now), events); w.tab.flight.Some? && w.tab.flight.value.outcome.None?
    ensures var w := History(ttl, Opening(now), events);
      && w.call < |w.server.calls| && w.tab.flight.value.token < |w.server.db.minted|
      && var c := w.server.calls[w.call];
        && !c.Rereading? && !c.Blacklisting? && !c.DroppingLookup? && !c.DroppingFamily?
        && (c.Finished? && Granted(c).None? ==> !LiveFamily(w.server.db, w.server.db.minted[w.tab.flight.value.token]))
  {
    hide History;
    HistorySound(ttl, now, events);
  }
}
