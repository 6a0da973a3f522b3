/** Access/refresh sessions over keys that expire: the state, one whole call at a time. */
module Sessions {
  import opened Prelude

  // auth:family:{id}, auth:refresh:{hash} and auth:blacklist:{jti}. An entry is live while now < until.
  // Identifiers are fresh and a hash stands for its token, so a position in `issued` or `minted` is the id.
  datatype Family = Family(refresh: nat, access: nat, until: int)
  datatype Lookup = Lookup(family: nat, until: int)

  // A signed access token. It carries no family; `family` remembers whom it was minted for.
  datatype Access = Access(family: nat, exp: int)

  datatype Ttl = Ttl(access: nat, refresh: nat)

  datatype Auth = Auth(
    now: int, families: map<nat, Family>, lookups: map<nat, Lookup>, blacklist: map<nat, int>,
    issued: seq<Access>, minted: seq<nat>, sessions: nat)

  datatype AuthError = Unavailable | UnknownRefresh | SessionClosed | SuspiciousReuse

  datatype Pair = Pair(access: nat, refresh: nat, family: nat)

  function Empty(now: int): Auth {
    Auth(now, map[], map[], map[], [], [], 0)
  }

  predicate LiveFamily(s: Auth, f: nat) {
    f in s.families && s.now < s.families[f].until
  }

  predicate LiveLookup(s: Auth, r: nat) {
    r in s.lookups && s.now < s.lookups[r].until
  }

  predicate Blacklisted(s: Auth, jti: nat) {
    jti in s.blacklist && s.now < s.blacklist[jti]
  }

  // What a protected request checks: not expired, not blacklisted.
  predicate Accepted(s: Auth, jti: nat) {
    jti < |s.issued| && s.now < s.issued[jti].exp && !Blacklisted(s, jti)
  }

  // SETEX refuses a time to live of zero.
  function Setex<V>(m: map<nat, V>, key: nat, ttl: nat, value: V): map<nat, V> {
    if ttl == 0 then m else m[key := value]
  }

  function Blacklist(ttl: Ttl, s: Auth, jti: nat): Auth {
    s.(blacklist := Setex(s.blacklist, jti, ttl.access, s.now + ttl.access))
  }

  // mintPair: sign, then both keys in one pipeline.
  function Mint(ttl: Ttl, s: Auth, f: nat): Auth {
    var jti, hash := |s.issued|, |s.minted|;
    s.(issued := s.issued + [Access(f, s.now + ttl.access)], minted := s.minted + [f],
       families := Setex(s.families, f, ttl.refresh, Family(hash, jti, s.now + ttl.refresh)),
       lookups := Setex(s.lookups, hash, ttl.refresh, Lookup(f, s.now + ttl.refresh)))
  }

  function DropLookup(s: Auth, r: nat): Auth {
    s.(lookups := s.lookups - {r})
  }

  function DropFamily(s: Auth, f: nat): Auth {
    s.(families := s.families - {f})
  }

  function RevokeFamily(ttl: Ttl, s: Auth, f: nat): Auth {
    if LiveFamily(s, f)
    then DropFamily(DropLookup(Blacklist(ttl, s, s.families[f].access), s.families[f].refresh), f)
    else DropFamily(s, f)
  }

  function Login(ttl: Ttl, s: Auth): Auth {
    Mint(ttl, s, s.sessions).(sessions := s.sessions + 1)
  }

  // The database after rotate, and the answer.
  function Rotate(ttl: Ttl, s: Auth, r: nat): (Auth, Result<Pair, AuthError>) {
    if !LiveLookup(s, r) then (s, Err(UnknownRefresh))
    else
      var f := s.lookups[r].family;
      if !LiveFamily(s, f) then (DropLookup(s, r), Err(SessionClosed))
      else if s.families[f].refresh != r then (RevokeFamily(ttl, s, f), Err(SuspiciousReuse))
      else (DropLookup(Mint(ttl, Blacklist(ttl, s, s.families[f].access), f), r), Ok(Pair(|s.issued|, |s.minted|, f)))
  }

  function Revoke(ttl: Ttl, s: Auth, r: nat): Auth {
    if LiveLookup(s, r) then RevokeFamily(ttl, s, s.lookups[r].family) else s
  }

  datatype Event = DoLogin | DoRotate(r: nat) | DoRevoke(r: nat) | Tick(seconds: nat)

  function Apply(ttl: Ttl, s: Auth, e: Event): Auth {
    match e
    case DoLogin => Login(ttl, s)
    case DoRotate(r) => Rotate(ttl, s, r).0
    case DoRevoke(r) => Revoke(ttl, s, r)
    case Tick(seconds) => s.(now := s.now + seconds)
  }

  function Run(ttl: Ttl, s: Auth, events: seq<Event>): Auth {
    if events == [] then s else Apply(ttl, Run(ttl, s, events[..|events| - 1]), events[|events| - 1])
  }

  lemma RunAppend(ttl: Ttl, s: Auth, events: seq<Event>, e: Event)
    ensures Run(ttl, s, events + [e]) == Apply(ttl, Run(ttl, s, events), e)
  {
    assert (events + [e])[..|events|] == events;
  }

  // --- the service --------------------------------------------------------------------

  class RefreshTokenService {
    const ttl: Ttl
    const connected: bool
    var now: int
    var families: map<nat, Family>
    var lookups: map<nat, Lookup>
    var blacklist: map<nat, int>
    var issued: seq<Access>
    var minted: seq<nat>
    var sessions: nat

    ghost function Db(): Auth
      reads this
    {
      Auth(now, families, lookups, blacklist, issued, minted, sessions)
    }

    constructor (ttl: Ttl, connected: bool, now: int)
      ensures Db() == Empty(now) && this.ttl == ttl && this.connected == connected
    {
      this.ttl, this.connected, this.now := ttl, connected, now;
      families, lookups, blacklist, issued, minted, sessions := map[], map[], map[], [], [], 0;
    }

    method GetFamilyId(hash: nat) returns (f: Option<nat>)
      ensures f == if LiveLookup(Db(), hash) then Some(lookups[hash].family) else None
    {
      f := if hash in lookups && now < lookups[hash].until then Some(lookups[hash].family) else None;
    }

    method GetFamily(f: nat) returns (meta: Option<Family>)
      ensures meta == if LiveFamily(Db(), f) then Some(families[f]) else None
    {
      meta := if f in families && now < families[f].until then Some(families[f]) else None;
    }

    method BlacklistAccess(jti: nat)
      modifies this
      ensures Db() == Blacklist(ttl, old(Db()), jti)
    {
      if ttl.access > 0 {
        blacklist := blacklist[jti := now + ttl.access];
      }
    }

    method MintPair(f: nat) returns (pair: Pair)
      modifies this
      ensures Db() == Mint(ttl, old(Db()), f)
      ensures pair == Pair(old(|issued|), old(|minted|), f)
    {
      var jti := |issued|;
      issued := issued + [Access(f, now + ttl.access)];
      var hash := |minted|;
      minted := minted + [f];
      if ttl.refresh > 0 {
        families := families[f := Family(hash, jti, now + ttl.refresh)];
        lookups := lookups[hash := Lookup(f, now + ttl.refresh)];
      }
      pair := Pair(jti, hash, f);
    }

    method DropFamilyKeys(f: nat)
      modifies this
      ensures Db() == RevokeFamily(ttl, old(Db()), f)
    {
      var meta := GetFamily(f);
      if meta.Some? {
        BlacklistAccess(meta.value.access);
        lookups := lookups - {meta.value.refresh};
      }
      families := families - {f};
    }

    method IssueTokenPair() returns (r: Result<Pair, AuthError>)
      modifies this
      ensures !connected ==> r == Err(Unavailable) && Db() == old(Db())
      ensures connected ==> r == Ok(Pair(old(|issued|), old(|minted|), old(sessions))) && Db() == Login(ttl, old(Db()))
    {
      if !connected {
        return Err(Unavailable);
      }
      var family := sessions;
      sessions := sessions + 1;
      var pair := MintPair(family);
      r := Ok(pair);
    }

    method RotatePair(refresh: nat) returns (r: Result<Pair, AuthError>)
      modifies this
      ensures !connected ==> r == Err(Unavailable) && Db() == old(Db())
      ensures connected ==> (Db(), r) == Rotate(ttl, old(Db()), refresh)
    {
      if !connected {
        return Err(Unavailable);
      }
      var family := GetFamilyId(refresh);
      if family.None? {
        return Err(UnknownRefresh);
      }
      var meta := GetFamily(family.value);
      if meta.None? {
        lookups := lookups - {refresh};
        return Err(SessionClosed);
      }
      if meta.value.refresh != refresh {
        DropFamilyKeys(family.value);
        return Err(SuspiciousReuse);
      }
      BlacklistAccess(meta.value.access);
      var pair := MintPair(family.value);
      lookups := lookups - {refresh};
      r := Ok(pair);
    }

    method RevokeSession(refresh: nat)
      modifies this
      ensures Db() == if connected then Revoke(ttl, old(Db()), refresh) else old(Db())
    {
      if !connected {
        return;
      }
      var family := GetFamilyId(refresh);
      if family.Some? {
        DropFamilyKeys(family.value);
      }
    }

    method IsAccessBlacklisted(jti: nat) returns (b: bool)
      ensures b <==> connected && Blacklisted(Db(), jti)
    {
      b := connected && jti in blacklist && now < blacklist[jti];
    }
  }

  // --- what every run keeps ---------------------------------------------------------------

  // No longer usable, now or ever: expired, or blacklisted to its end.
  ghost predicate Dead(s: Auth, jti: nat)
    requires jti < |s.issued|
  {
    s.issued[jti].exp <= s.now || (jti in s.blacklist && s.blacklist[jti] >= s.issued[jti].exp)
  }

  ghost predicate Current(s: Auth, f: nat, jti: nat) {
    f in s.families && s.families[f].access == jti
  }

  ghost predicate KnownIds(s: Auth) {
    && (forall f | f in s.families :: f < s.sessions && s.families[f].access < |s.issued|
                                      && s.issued[s.families[f].access].family == f
                                      && s.families[f].refresh < |s.minted| && s.minted[s.families[f].refresh] == f)
    && (forall j | 0 <= j < |s.issued| :: s.issued[j].family < s.sessions)
    && (forall r | 0 <= r < |s.minted| :: s.minted[r] < s.sessions)
  }

  // With a refresh lifetime of zero no key is ever stored, and every login stands alone.
  ghost predicate Alone(ttl: Ttl, s: Auth, jti: nat)
    requires jti < |s.issued|
  {
    ttl.refresh == 0 && forall k | 0 <= k < |s.issued| && k != jti :: s.issued[k].family != s.issued[jti].family
  }

  // Every token that is not dead is the one its family record names.
  ghost predicate OthersDead(ttl: Ttl, s: Auth) {
    forall j | 0 <= j < |s.issued| :: Dead(s, j) || Current(s, s.issued[j].family, j) || Alone(ttl, s, j)
  }

  ghost predicate Horizon(ttl: Ttl, s: Auth) {
    && (forall j | 0 <= j < |s.issued| :: s.issued[j].exp <= s.now + ttl.access)
    && (ttl.refresh >= ttl.access ==> forall f | f in s.families && s.families[f].access < |s.issued| ::
          s.issued[s.families[f].access].exp <= s.families[f].until)
    && (ttl.refresh == 0 ==> s.families == map[] && s.lookups == map[])
  }

  /** Refresh lookups and families name each other, entry by entry, with the same end. */
  ghost predicate OneToOne(s: Auth) {
    && (forall r | r in s.lookups :: s.lookups[r].family in s.families && s.families[s.lookups[r].family].refresh == r)
    && (forall f | f in s.families :: s.families[f].refresh in s.lookups
                                      && s.lookups[s.families[f].refresh] == Lookup(f, s.families[f].until))
  }

  ghost predicate Settled(ttl: Ttl, s: Auth) {
    KnownIds(s) && OthersDead(ttl, s) && Horizon(ttl, s)
  }

  ghost predicate Consistent(ttl: Ttl, s: Auth) {
    Settled(ttl, s) && OneToOne(s)
  }

  lemma BlacklistKeeps(ttl: Ttl, s: Auth, jti: nat)
    requires Settled(ttl, s) && jti < |s.issued|
    ensures var t := Blacklist(ttl, s, jti);
      Dead(t, jti) && Settled(ttl, t)
  {
    var t := Blacklist(ttl, s, jti);
    forall j | 0 <= j < |s.issued|
      ensures Dead(s, j) ==> Dead(t, j)
      ensures Alone(ttl, s, j) ==> Alone(ttl, t, j)
    {
    }
  }

  function Minted(ttl: Ttl, s: Auth, f: nat): Auth {
    Mint(ttl, s, f).(sessions := if f == s.sessions then f + 1 else s.sessions)
  }

  lemma MintKeepsOthersDead(ttl: Ttl, s: Auth, f: nat)
    requires Settled(ttl, s)
    requires f <= s.sessions && (f in s.families ==> Dead(s, s.families[f].access))
    requires ttl.refresh == 0 ==> f == s.sessions
    ensures OthersDead(ttl, Minted(ttl, s, f))
  {
    var t := Minted(ttl, s, f);
    forall j | 0 <= j < |t.issued|
      ensures Dead(t, j) || Current(t, t.issued[j].family, j) || Alone(ttl, t, j)
    {
      if j < |s.issued| {
        assert Dead(s, j) || Current(s, s.issued[j].family, j) || Alone(ttl, s, j);
      }
    }
  }

  // Minting for a new family, or for one whose current token is dead.
  lemma MintKeeps(ttl: Ttl, s: Auth, f: nat)
    requires Settled(ttl, s)
    requires f <= s.sessions && (f in s.families ==> Dead(s, s.families[f].access))
    requires ttl.refresh == 0 ==> f == s.sessions
    ensures var t := Minted(ttl, s, f); Settled(ttl, t)
  {
    MintKeepsOthersDead(ttl, s, f);
    hide OthersDead;
    hide Dead;
  }

  lemma DropLookupKeeps(ttl: Ttl, s: Auth, r: nat)
    requires Settled(ttl, s)
    ensures Settled(ttl, DropLookup(s, r))
    ensures forall j | 0 <= j < |s.issued| :: Dead(DropLookup(s, r), j) <==> Dead(s, j)
  {
    var t := DropLookup(s, r);
    forall j | 0 <= j < |s.issued|
      ensures Dead(s, j) <==> Dead(t, j)
      ensures Alone(ttl, s, j) ==> Alone(ttl, t, j)
    {
    }
  }

  lemma DropFamilyKeeps(ttl: Ttl, s: Auth, f: nat)
    requires Settled(ttl, s)
    requires f in s.families ==> Dead(s, s.families[f].access)
    ensures Settled(ttl, DropFamily(s, f))
  {
    var u := DropFamily(s, f);
    forall j | 0 <= j < |s.issued|
      ensures Dead(s, j) <==> Dead(u, j)
      ensures Alone(ttl, s, j) ==> Alone(ttl, u, j)
    {
    }
  }

  lemma RevokeOneToOne(ttl: Ttl, s: Auth, f: nat)
    requires OneToOne(s) && LiveFamily(s, f)
    ensures OneToOne(RevokeFamily(ttl, s, f))
  {
  }

  lemma RevokeSettled(ttl: Ttl, s: Auth, f: nat)
    requires Settled(ttl, s) && LiveFamily(s, f)
    ensures Settled(ttl, RevokeFamily(ttl, s, f))
  {
    var b := Blacklist(ttl, s, s.families[f].access);
    BlacklistKeeps(ttl, s, s.families[f].access);
    DropLookupKeeps(ttl, b, s.families[f].refresh);
    var d := DropLookup(b, s.families[f].refresh);
    assert d.families == b.families;
    DropFamilyKeeps(ttl, d, f);
    hide KnownIds;
    hide OthersDead;
    hide Horizon;
    hide Blacklist;
  }

  lemma RotateOneToOne(ttl: Ttl, s: Auth, r: nat)
    requires KnownIds(s) && OneToOne(s) && LiveLookup(s, r) && LiveFamily(s, s.lookups[r].family) && ttl.refresh > 0
    requires forall k | k in s.lookups :: k < |s.minted|
    ensures OneToOne(Rotate(ttl, s, r).0)
  {
  }

  lemma RotateSettled(ttl: Ttl, s: Auth, r: nat)
    requires Settled(ttl, s) && LiveLookup(s, r) && LiveFamily(s, s.lookups[r].family)
    requires s.families[s.lookups[r].family].refresh == r && ttl.refresh > 0
    ensures Settled(ttl, Rotate(ttl, s, r).0)
  {
    var f := s.lookups[r].family;
    var b := Blacklist(ttl, s, s.families[f].access);
    var m := Mint(ttl, b, f);
    BlacklistKeeps(ttl, s, s.families[f].access);
    assert m == m.(sessions := s.sessions) && f < s.sessions;
    MintKeeps(ttl, b, f);
    DropLookupKeeps(ttl, m, r);
  }

  lemma LookupsLiveTogether(ttl: Ttl, s: Auth, r: nat)
    requires OneToOne(s) && LiveLookup(s, r)
    ensures LiveFamily(s, s.lookups[r].family) && s.families[s.lookups[r].family].refresh == r
  {
    var f := s.lookups[r].family;
    assert s.lookups[s.families[f].refresh] == Lookup(f, s.families[f].until);
  }

  lemma KnownLookups(s: Auth)
    requires KnownIds(s) && OneToOne(s)
    ensures forall r | r in s.lookups :: r < |s.minted|
  {
    forall r | r in s.lookups
      ensures r < |s.minted|
    {
      assert s.lookups[r].family in s.families;
    }
  }

  lemma StepKeeps(ttl: Ttl, s: Auth, e: Event)
    requires Consistent(ttl, s)
    ensures Consistent(ttl, Apply(ttl, s, e))
  {
    match e
    case DoLogin =>
      LoginKeeps(ttl, s);
    case DoRotate(r) =>
      if LiveLookup(s, r) {
        LookupsLiveTogether(ttl, s, r);
        KnownLookups(s);
        RotateOneToOne(ttl, s, r);
        RotateSettled(ttl, s, r);
      }
    case DoRevoke(r) =>
      if LiveLookup(s, r) {
        LookupsLiveTogether(ttl, s, r);
        RevokeOneToOne(ttl, s, s.lookups[r].family);
        RevokeSettled(ttl, s, s.lookups[r].family);
      }
    case Tick(seconds) =>
      TickKeeps(ttl, s, seconds);
  }

  lemma LoginOneToOne(ttl: Ttl, s: Auth)
    requires KnownIds(s) && OneToOne(s)
    ensures OneToOne(Login(ttl, s))
  {
    KnownLookups(s);
  }

  lemma LoginKeeps(ttl: Ttl, s: Auth)
    requires Consistent(ttl, s)
    ensures Consistent(ttl, Login(ttl, s))
  {
    LoginOneToOne(ttl, s);
    hide OneToOne;
    MintKeeps(ttl, s, s.sessions);
    hide KnownIds;
    hide OthersDead;
    hide Horizon;
  }

  lemma TickKeeps(ttl: Ttl, s: Auth, seconds: nat)
    requires Consistent(ttl, s)
    ensures Consistent(ttl, s.(now := s.now + seconds))
  {
    var t := s.(now := s.now + seconds);
    forall j | 0 <= j < |s.issued|
      ensures Dead(s, j) ==> Dead(t, j)
      ensures Alone(ttl, s, j) ==> Alone(ttl, t, j)
    {
    }
  }

  lemma {:induction false} RunKeeps(ttl: Ttl, now: int, events: seq<Event>)
    ensures Consistent(ttl, Run(ttl, Empty(now), events))
  {
    if events == [] {
    } else {
      hide Consistent;
      RunKeeps(ttl, now, events[..|events| - 1]);
      StepKeeps(ttl, Run(ttl, Empty(now), events[..|events| - 1]), events[|events| - 1]);
    }
  }

  // --- main results ---------------------------------------------------------------------------

  /** At every instant of every run at most one access token of a session is accepted. */
  lemma OneLiveAccess(ttl: Ttl, now: int, events: seq<Event>, i: nat, j: nat)
    requires var s := Run(ttl, Empty(now), events);
      Accepted(s, i) && Accepted(s, j) && s.issued[i].family == s.issued[j].family
    ensures i == j
  {
    hide Run;
    RunKeeps(ttl, now, events);
  }

  ghost predicate AcceptedIsCurrent(s: Auth) {
    forall j | 0 <= j < |s.issued| && Accepted(s, j) ::
      LiveFamily(s, s.issued[j].family) && s.families[s.issued[j].family].access == j
  }

  lemma CurrentInRun(ttl: Ttl, now: int, events: seq<Event>)
    requires ttl.refresh >= ttl.access
    ensures AcceptedIsCurrent(Run(ttl, Empty(now), events))
  {
    hide Run;
    RunKeeps(ttl, now, events);
    var s := Run(ttl, Empty(now), events);
    forall j | 0 <= j < |s.issued| && Accepted(s, j)
      ensures LiveFamily(s, s.issued[j].family) && s.families[s.issued[j].family].access == j
    {
      assert Dead(s, j) || Current(s, s.issued[j].family, j) || Alone(ttl, s, j);
    }
  }

  /** A login, then the refresh lifetime passes: the access token outlives its session. */
  lemma OutlivesItsSession(ttl: Ttl)
    requires ttl.refresh < ttl.access
    ensures !AcceptedIsCurrent(Run(ttl, Empty(0), [DoLogin, Tick(ttl.refresh)]))
  {
    var events := [DoLogin, Tick(ttl.refresh)];
    assert events[..1] == [DoLogin] && [DoLogin][..0] == [];
    assert Run(ttl, Empty(0), []) == Empty(0);
    assert Run(ttl, Empty(0), [DoLogin]) == Login(ttl, Empty(0));
    var s := Run(ttl, Empty(0), events);
    assert s == Login(ttl, Empty(0)).(now := ttl.refresh);
    assert Accepted(s, 0);
  }

  /** The accepted token is always its live session's current one exactly when refresh tokens live at
      least as long as access tokens. */
  lemma AcceptedIsCurrentIff(ttl: Ttl)
    ensures (forall now, events :: AcceptedIsCurrent(Run(ttl, Empty(now), events))) <==> ttl.refresh >= ttl.access
  {
    if ttl.refresh >= ttl.access {
      forall now, events
        ensures AcceptedIsCurrent(Run(ttl, Empty(now), events))
      {
        CurrentInRun(ttl, now, events);
      }
    } else {
      OutlivesItsSession(ttl);
    }
  }

  ghost predicate Gone(s: Auth, f: nat) {
    f < s.sessions && f !in s.families
  }

  lemma GoneStays(ttl: Ttl, s: Auth, e: Event, f: nat)
    requires Consistent(ttl, s) && Gone(s, f)
    ensures Gone(Apply(ttl, s, e), f)
  {
    hide OthersDead;
    hide Horizon;
  }

  lemma {:induction false} GoneForever(ttl: Ttl, s: Auth, events: seq<Event>, f: nat)
    requires Consistent(ttl, s) && Gone(s, f)
    ensures var t := Run(ttl, s, events); Consistent(ttl, t) && Gone(t, f)
  {
    if events != [] {
      hide Consistent;
      hide Gone;
      GoneForever(ttl, s, events[..|events| - 1], f);
      var before := Run(ttl, s, events[..|events| - 1]);
      StepKeeps(ttl, before, events[|events| - 1]);
      GoneStays(ttl, before, events[|events| - 1], f);
    }
  }

  lemma {:induction false} RunTwice(ttl: Ttl, s: Auth, a: seq<Event>, b: seq<Event>)
    ensures Run(ttl, s, a + b) == Run(ttl, Run(ttl, s, a), b)
  {
    if b == [] {
      assert a + b == a;
    } else {
      RunTwice(ttl, s, a, b[..|b| - 1]);
      assert (a + b)[..|a + b| - 1] == a + b[..|b| - 1];
    }
  }

  /** After a logout that found its session, no access token of it is accepted ever again. */
  lemma RevokedForever(ttl: Ttl, now: int, events: seq<Event>, r: nat, later: seq<Event>, jti: nat)
    requires LiveLookup(Run(ttl, Empty(now), events), r)
    ensures var before := Run(ttl, Empty(now), events);
            var after := Run(ttl, Empty(now), events + [DoRevoke(r)] + later);
      jti < |after.issued| && after.issued[jti].family == before.lookups[r].family ==> !Accepted(after, jti)
  {
    var before := Run(ttl, Empty(now), events);
    RunKeeps(ttl, now, events);
    RunAppend(ttl, Empty(now), events, DoRevoke(r));
    RunTwice(ttl, Empty(now), events + [DoRevoke(r)], later);
    var revoked := Revoke(ttl, before, r);
    LookupsLiveTogether(ttl, before, r);
    StepKeeps(ttl, before, DoRevoke(r));
    hide Run;
    assert Gone(revoked, before.lookups[r].family);
    GoneForever(ttl, revoked, later, before.lookups[r].family);
    var after := Run(ttl, revoked, later);
    if jti < |after.issued| && after.issued[jti].family == before.lookups[r].family {
      assert Dead(after, jti) || Current(after, after.issued[jti].family, jti) || Alone(ttl, after, jti);
    }
  }

  /** In runs of whole calls a refresh is honoured exactly when it is the current one of a live session,
      and every other is simply unknown: the reuse branch and the closed-session branch are never taken. */
  lemma HonouredIff(ttl: Ttl, now: int, events: seq<Event>, r: nat)
    ensures var s := Run(ttl, Empty(now), events);
      && (Rotate(ttl, s, r).1.Ok? <==> exists f :: LiveFamily(s, f) && s.families[f].refresh == r)
      && (Rotate(ttl, s, r).1.Err? ==> Rotate(ttl, s, r) == (s, Err(UnknownRefresh)))
  {
    hide Run;
    RunKeeps(ttl, now, events);
    var s := Run(ttl, Empty(now), events);
    if LiveLookup(s, r) {
      LookupsLiveTogether(ttl, s, r);
    }
  }

  ghost predicate Spent(s: Auth, r: nat) {
    r < |s.minted| && r !in s.lookups
  }

  lemma {:induction false} SpentForever(ttl: Ttl, s: Auth, events: seq<Event>, r: nat)
    requires Spent(s, r)
    ensures Spent(Run(ttl, s, events), r)
  {
    if events != [] {
      SpentForever(ttl, s, events[..|events| - 1], r);
    }
  }

  /** A refresh that was rotated is never honoured again; presenting it later changes nothing at all,
      so the session it belonged to stays open. */
  lemma ReplayChangesNothing(ttl: Ttl, now: int, events: seq<Event>, r: nat, later: seq<Event>)
    requires Rotate(ttl, Run(ttl, Empty(now), events), r).1.Ok?
    ensures var after := Run(ttl, Empty(now), events + [DoRotate(r)] + later);
      Rotate(ttl, after, r) == (after, Err(UnknownRefresh))
  {
    var before := Run(ttl, Empty(now), events);
    RunKeeps(ttl, now, events);
    KnownLookups(before);
    RunAppend(ttl, Empty(now), events, DoRotate(r));
    RunTwice(ttl, Empty(now), events + [DoRotate(r)], later);
    hide Run;
    SpentForever(ttl, Apply(ttl, before, DoRotate(r)), later, r);
  }
}
