/** Rotations of one session that overlap: exactly when two of its access tokens are accepted at once, and a guard
    on the mint that excludes it. */
module OverlappingRotations {
  import opened Prelude
  import opened Sessions
  import opened Rotations

  ghost predicate OneEach(db: Auth) {
    forall i, j | 0 <= i < |db.issued| && 0 <= j < |db.issued| && Accepted(db, i) && Accepted(db, j)
                  && db.issued[i].family == db.issued[j].family :: i == j
  }

  /** The command mints for a session while one of its access tokens is accepted. */
  ghost predicate MintsOnTop(s: System, e: Step) {
    && e.Proceed? && e.i < |s.calls| && s.calls[e.i].Minting?
    && exists j :: 0 <= j < |s.db.issued| && Accepted(s.db, j) && s.db.issued[j].family == s.calls[e.i].f
  }

  // --- what holds in every interleaving -----------------------------------------------------

  // Every blacklist entry is of an issued token and lasts at least as long as it.
  ghost predicate BlacklistLasts(db: Auth) {
    forall j | j in db.blacklist :: j < |db.issued| && db.issued[j].exp <= db.blacklist[j]
  }

  ghost predicate Issued(ttl: Ttl, db: Auth) {
    && (forall j | 0 <= j < |db.issued| :: db.issued[j].exp <= db.now + ttl.access && db.issued[j].family < db.sessions)
    && (forall f | f in db.families :: f < db.sessions && db.families[f].access < |db.issued|
                                       && db.families[f].refresh < |db.minted|)
    && (forall r | r in db.lookups :: db.lookups[r].family < db.sessions)
  }

  ghost predicate CallKnown(db: Auth, c: Call) {
    match c
    case Reading(_, f) => f < db.sessions
    case Accepting(_, f, access) => f < db.sessions && access < |db.issued|
    case Minting(_, f) => f < db.sessions
    case Rereading(f, _) => f < db.sessions
    case Blacklisting(_, meta, _) => meta.access < |db.issued|
    case _ => true
  }

  ghost predicate Basic(ttl: Ttl, s: System) {
    Issued(ttl, s.db) && BlacklistLasts(s.db) && forall c | c in s.calls :: CallKnown(s.db, c)
  }

  lemma BlacklistBasic(ttl: Ttl, db: Auth, jti: nat)
    requires Issued(ttl, db) && BlacklistLasts(db) && jti < |db.issued|
    ensures var t := Blacklist(ttl, db, jti);
      && Issued(ttl, t) && BlacklistLasts(t) && !Accepted(t, jti)
      && forall j | 0 <= j < |db.issued| && Accepted(t, j) :: Accepted(db, j)
  {
  }

  lemma MintBasic(ttl: Ttl, db: Auth, f: nat)
    requires Issued(ttl, db) && BlacklistLasts(db) && f <= db.sessions
    ensures var t := Mint(ttl, db, f).(sessions := if f == db.sessions then f + 1 else db.sessions);
      && Issued(ttl, t) && BlacklistLasts(t)
      && (Accepted(t, |db.issued|) <==> ttl.access > 0)
      && forall j | 0 <= j < |db.issued| :: Accepted(t, j) <==> Accepted(db, j)
  {
  }

  // A command other than a mint accepts nothing new.
  ghost predicate NothingNew(s: Auth, t: Auth) {
    && t.issued == s.issued && t.minted == s.minted && t.sessions == s.sessions
    && forall j | 0 <= j < |s.issued| && Accepted(t, j) :: Accepted(s, j)
  }

  lemma CommandBasic(ttl: Ttl, db: Auth, c: Call)
    requires Issued(ttl, db) && BlacklistLasts(db) && CallKnown(db, c) && !c.Minting?
    ensures var next := Advance(ttl, db, c);
      Issued(ttl, next.0) && BlacklistLasts(next.0) && NothingNew(db, next.0) && CallKnown(next.0, next.1)
  {
    match c
    case Accepting(_, _, access) => BlacklistBasic(ttl, db, access);
    case Blacklisting(_, meta, _) => BlacklistBasic(ttl, db, meta.access);
    case _ =>
  }

  lemma KnownStays(s: Auth, t: Auth, c: Call)
    requires CallKnown(s, c) && s.sessions <= t.sessions && |s.issued| <= |t.issued|
    ensures CallKnown(t, c)
  {
  }

  lemma CallsStay(s: System, t: Auth, i: nat, c: Call)
    requires (forall c | c in s.calls :: CallKnown(s.db, c)) && i < |s.calls|
    requires s.db.sessions <= t.sessions && |s.db.issued| <= |t.issued| && CallKnown(t, c)
    ensures forall x | x in s.calls[i := c] :: CallKnown(t, x)
  {
    forall x | x in s.calls[i := c]
      ensures CallKnown(t, x)
    {
      if x in s.calls {
        KnownStays(s.db, t, x);
      }
    }
  }

  lemma ProceedBasic(ttl: Ttl, s: System, i: nat)
    requires Basic(ttl, s) && i < |s.calls|
    ensures Basic(ttl, Do(ttl, s, Proceed(i)))
  {
    var c := s.calls[i];
    var next := Advance(ttl, s.db, c);
    assert c in s.calls;
    if c.Minting? {
      MintBasic(ttl, s.db, c.f);
      assert next.0 == next.0.(sessions := s.db.sessions);
    } else {
      CommandBasic(ttl, s.db, c);
    }
    CallsStay(s, next.0, i, next.1);
    hide Issued;
    hide BlacklistLasts;
    hide CallKnown;
    hide Advance;
  }

  lemma StepBasic(ttl: Ttl, s: System, e: Step)
    requires Basic(ttl, s)
    ensures Basic(ttl, Do(ttl, s, e))
  {
    match e
    case Proceed(i) =>
      if i < |s.calls| {
        ProceedBasic(ttl, s, i);
      }
    case NewLogin =>
      MintBasic(ttl, s.db, s.db.sessions);
      var t := Login(ttl, s.db);
      forall c | c in s.calls
        ensures CallKnown(t, c)
      {
        KnownStays(s.db, t, c);
      }
    case Start(r, logout) =>
      assert r < |s.db.minted| ==> forall c | c in s.calls + [Looking(r, logout)] :: CallKnown(s.db, c);
    case Wait(seconds) =>
      assert forall c | c in s.calls :: CallKnown(s.db.(now := s.db.now + seconds), c);
  }

  // --- the exact condition ---------------------------------------------------------------------

  lemma NothingNewKeeps(s: Auth, t: Auth)
    requires OneEach(s) && NothingNew(s, t)
    ensures OneEach(t)
  {
  }

  lemma MintIff(ttl: Ttl, db: Auth, f: nat)
    requires Issued(ttl, db) && BlacklistLasts(db) && f <= db.sessions && OneEach(db)
    ensures var t := Mint(ttl, db, f).(sessions := if f == db.sessions then f + 1 else db.sessions);
      OneEach(t) <==> !exists j :: 0 <= j < |db.issued| && Accepted(db, j) && db.issued[j].family == f
  {
    var t := Mint(ttl, db, f).(sessions := if f == db.sessions then f + 1 else db.sessions);
    MintBasic(ttl, db, f);
    var n := |db.issued|;
    if j :| 0 <= j < n && Accepted(db, j) && db.issued[j].family == f {
      assert ttl.access > 0;
      assert Accepted(t, j) && Accepted(t, n) && t.issued[j].family == t.issued[n].family;
    } else {
      forall i, j | 0 <= i < |t.issued| && 0 <= j < |t.issued| && Accepted(t, i) && Accepted(t, j)
                    && t.issued[i].family == t.issued[j].family
        ensures i == j
      {
        assert i < n ==> Accepted(db, i);
        assert j < n ==> Accepted(db, j);
      }
    }
    hide Mint;
    hide Accepted;
  }

  /** One step keeps one accepted token per session exactly when it does not mint on top of one. */
  lemma StepOneEachIff(ttl: Ttl, s: System, e: Step)
    requires Basic(ttl, s) && OneEach(s.db)
    ensures OneEach(Do(ttl, s, e).db) <==> !MintsOnTop(s, e)
  {
    match e
    case Proceed(i) =>
      if i < |s.calls| {
        var c := s.calls[i];
        assert c in s.calls;
        if c.Minting? {
          MintIff(ttl, s.db, c.f);
          var t := Mint(ttl, s.db, c.f);
          assert t == t.(sessions := s.db.sessions);
        } else {
          CommandBasic(ttl, s.db, c);
          NothingNewKeeps(s.db, Do(ttl, s, e).db);
        }
      }
    case NewLogin =>
      MintIff(ttl, s.db, s.db.sessions);
    case Start(_, _) =>
    case Wait(seconds) =>
      NothingNewKeeps(s.db, s.db.(now := s.db.now + seconds));
  }

  ghost predicate AlwaysOneEach(ttl: Ttl, s: System, steps: seq<Step>)
    decreases |steps|
  {
    OneEach(DoAll(ttl, s, steps).db) && (steps != [] ==> AlwaysOneEach(ttl, s, steps[..|steps| - 1]))
  }

  ghost predicate NeverOnTop(ttl: Ttl, s: System, steps: seq<Step>)
    decreases |steps|
  {
    steps != [] ==>
      && NeverOnTop(ttl, s, steps[..|steps| - 1])
      && !MintsOnTop(DoAll(ttl, s, steps[..|steps| - 1]), steps[|steps| - 1])
  }

  lemma {:induction false} RunBasic(ttl: Ttl, now: int, steps: seq<Step>)
    ensures Basic(ttl, DoAll(ttl, System(Empty(now), []), steps))
  {
    if steps != [] {
      hide Basic;
      RunBasic(ttl, now, steps[..|steps| - 1]);
      StepBasic(ttl, DoAll(ttl, System(Empty(now), []), steps[..|steps| - 1]), steps[|steps| - 1]);
    }
  }

  /** Over every interleaving of logins, rotations, logouts and the clock: at most one access token of each session
      is accepted at every point exactly when no mint runs while a token of its session is accepted. */
  lemma {:induction false} OneEachIff(ttl: Ttl, now: int, steps: seq<Step>)
    ensures var s := System(Empty(now), []); AlwaysOneEach(ttl, s, steps) <==> NeverOnTop(ttl, s, steps)
  {
    var s := System(Empty(now), []);
    if steps == [] {
      assert DoAll(ttl, s, []) == s;
    } else {
      hide Basic;
      hide MintsOnTop;
      var n := |steps| - 1;
      OneEachIff(ttl, now, steps[..n]);
      RunBasic(ttl, now, steps[..n]);
      if AlwaysOneEach(ttl, s, steps[..n]) {
        assert OneEach(DoAll(ttl, s, steps[..n]).db);
        StepOneEachIff(ttl, DoAll(ttl, s, steps[..n]), steps[n]);
      }
    }
  }

  // --- a guard on the mint -----------------------------------------------------------------------

  /** A mint runs only while its session is on record and still names the refresh it was given. */
  ghost predicate Guarded(s: System, e: Step) {
    e.Proceed? && e.i < |s.calls| && s.calls[e.i].Minting? ==>
      var f := s.calls[e.i].f;
      f in s.db.families && s.db.families[f].refresh == s.calls[e.i].r
  }

  // The only accepted token of a session on record is the one it names.
  ghost predicate NamedOnly(db: Auth) {
    forall j | 0 <= j < |db.issued| && Accepted(db, j) && db.issued[j].family in db.families ::
      db.families[db.issued[j].family].access == j
  }

  // A call past its check has blacklisted, or is about to, what the session names under the same refresh.
  ghost predicate CallCurrent(db: Auth, c: Call) {
    match c
    case Looking(r, _) => r < |db.minted|
    case Reading(r, _) => r < |db.minted|
    case Accepting(r, f, access) =>
      r < |db.minted| && (f in db.families && db.families[f].refresh == r ==> db.families[f].access == access)
    case Minting(r, f) =>
      r < |db.minted| && (f in db.families && db.families[f].refresh == r ==> !Accepted(db, db.families[f].access))
    case _ => true
  }

  ghost predicate Named(s: System) {
    NamedOnly(s.db) && forall c | c in s.calls :: CallCurrent(s.db, c)
  }

  // A step that mints nothing, seen from another call.
  lemma CurrentStays(s: Auth, t: Auth, c: Call)
    requires CallCurrent(s, c) && NothingNew(s, t)
    requires forall f | f in t.families :: f in s.families && t.families[f] == s.families[f]
    requires forall f | f in s.families :: s.families[f].access < |s.issued|
    ensures CallCurrent(t, c)
  {
  }

  lemma CurrentAcrossMint(ttl: Ttl, db: Auth, f: nat, c: Call)
    requires Issued(ttl, db) && BlacklistLasts(db) && f <= db.sessions && CallCurrent(db, c)
    ensures CallCurrent(Mint(ttl, db, f).(sessions := if f == db.sessions then f + 1 else db.sessions), c)
  {
    MintBasic(ttl, db, f);
    hide Accepted;
  }

  lemma NamedAcrossMint(ttl: Ttl, db: Auth, f: nat)
    requires Issued(ttl, db) && BlacklistLasts(db) && f <= db.sessions && NamedOnly(db)
    requires !exists j :: 0 <= j < |db.issued| && Accepted(db, j) && db.issued[j].family == f
    requires ttl.refresh == 0 ==> db.families == map[]
    ensures NamedOnly(Mint(ttl, db, f).(sessions := if f == db.sessions then f + 1 else db.sessions))
  {
    var t := Mint(ttl, db, f).(sessions := if f == db.sessions then f + 1 else db.sessions);
    MintBasic(ttl, db, f);
    forall j | 0 <= j < |t.issued| && Accepted(t, j) && t.issued[j].family in t.families
      ensures t.families[t.issued[j].family].access == j
    {
      if j < |db.issued| {
        assert Accepted(db, j);
      }
    }
    hide Accepted;
  }

  // With no lifetime for refresh tokens nothing is ever on record.
  ghost predicate Lifeless(ttl: Ttl, db: Auth) {
    ttl.refresh == 0 ==> db.families == map[]
  }

  lemma CommandNamed(ttl: Ttl, db: Auth, c: Call)
    requires Issued(ttl, db) && BlacklistLasts(db) && CallKnown(db, c) && !c.Minting? && NamedOnly(db)
      && CallCurrent(db, c)
    ensures var next := Advance(ttl, db, c); NamedOnly(next.0) && CallCurrent(next.0, next.1)
    ensures var t := Advance(ttl, db, c).0;
      forall f | f in t.families :: f in db.families && t.families[f] == db.families[f]
  {
    var next := Advance(ttl, db, c);
    CommandBasic(ttl, db, c);
    if c.Accepting? {
      BlacklistBasic(ttl, db, c.access);
    }
    forall j | 0 <= j < |db.issued| && Accepted(next.0, j)
      ensures Accepted(db, j)
    {
    }
  }

  lemma ProceedNamed(ttl: Ttl, s: System, i: nat)
    requires Basic(ttl, s) && Named(s) && Lifeless(ttl, s.db) && i < |s.calls| && Guarded(s, Proceed(i))
    ensures !MintsOnTop(s, Proceed(i))
    ensures var t := Do(ttl, s, Proceed(i)); Named(t) && Lifeless(ttl, t.db)
  {
    var c := s.calls[i];
    var t := Do(ttl, s, Proceed(i));
    assert c in s.calls;
    if c.Minting? {
      forall j | 0 <= j < |s.db.issued| && s.db.issued[j].family == c.f
        ensures !Accepted(s.db, j)
      {
      }
      NamedAcrossMint(ttl, s.db, c.f);
      var m := Mint(ttl, s.db, c.f);
      assert t.db == m == m.(sessions := s.db.sessions);
    } else {
      CommandNamed(ttl, s.db, c);
      CommandBasic(ttl, s.db, c);
    }
    forall x | x in t.calls
      ensures CallCurrent(t.db, x)
    {
      if x in s.calls {
        if c.Minting? {
          CurrentAcrossMint(ttl, s.db, c.f, x);
        } else {
          CurrentStays(s.db, t.db, x);
        }
      }
    }
    hide Issued;
    hide BlacklistLasts;
    hide Accepted;
  }

  lemma StepNamed(ttl: Ttl, s: System, e: Step)
    requires Basic(ttl, s) && Named(s) && Lifeless(ttl, s.db) && Guarded(s, e)
    ensures !MintsOnTop(s, e)
    ensures Named(Do(ttl, s, e)) && Lifeless(ttl, Do(ttl, s, e).db)
  {
    match e
    case Proceed(i) =>
      if i < |s.calls| {
        ProceedNamed(ttl, s, i);
      }
    case NewLogin =>
      NamedAcrossMint(ttl, s.db, s.db.sessions);
      forall c | c in s.calls
        ensures CallCurrent(Login(ttl, s.db), c)
      {
        CurrentAcrossMint(ttl, s.db, s.db.sessions, c);
      }
    case Start(r, logout) =>
      assert r < |s.db.minted| ==> forall c | c in s.calls + [Looking(r, logout)] :: CallCurrent(s.db, c);
    case Wait(seconds) =>
      var t := s.db.(now := s.db.now + seconds);
      assert NothingNew(s.db, t);
      forall c | c in s.calls
        ensures CallCurrent(t, c)
      {
        CurrentStays(s.db, t, c);
      }
  }

  ghost predicate AlwaysGuarded(ttl: Ttl, s: System, steps: seq<Step>)
    decreases |steps|
  {
    steps != [] ==>
      && AlwaysGuarded(ttl, s, steps[..|steps| - 1])
      && Guarded(DoAll(ttl, s, steps[..|steps| - 1]), steps[|steps| - 1])
  }

  lemma {:induction false} GuardedRun(ttl: Ttl, now: int, steps: seq<Step>)
    requires AlwaysGuarded(ttl, System(Empty(now), []), steps)
    ensures var t := DoAll(ttl, System(Empty(now), []), steps); Named(t) && Lifeless(ttl, t.db)
    ensures NeverOnTop(ttl, System(Empty(now), []), steps)
  {
    var s := System(Empty(now), []);
    if steps == [] {
      assert DoAll(ttl, s, []) == s;
    } else {
      hide Basic;
      hide Named;
      hide MintsOnTop;
      hide Guarded;
      var n := |steps| - 1;
      GuardedRun(ttl, now, steps[..n]);
      RunBasic(ttl, now, steps[..n]);
      StepNamed(ttl, DoAll(ttl, s, steps[..n]), steps[n]);
    }
  }

  /** If every mint checks that its session still names the refresh it was given, at most one access token of each
      session is accepted at every point, however rotations and logouts overlap. */
  lemma GuardSuffices(ttl: Ttl, now: int, steps: seq<Step>)
    requires AlwaysGuarded(ttl, System(Empty(now), []), steps)
    ensures AlwaysOneEach(ttl, System(Empty(now), []), steps)
  {
    GuardedRun(ttl, now, steps);
    OneEachIff(ttl, now, steps);
  }

  // --- a weaker guard is not enough -----------------------------------------------------------------

  /** As above, but a mint also runs when its session is no longer on record. */
  ghost predicate LooselyGuarded(s: System, e: Step) {
    e.Proceed? && e.i < |s.calls| && s.calls[e.i].Minting? ==>
      var f := s.calls[e.i].f;
      f in s.db.families ==> s.db.families[f].refresh == s.calls[e.i].r
  }

  ghost predicate AlwaysLoose(ttl: Ttl, s: System, steps: seq<Step>)
    decreases |steps|
  {
    steps != [] ==>
      && AlwaysLoose(ttl, s, steps[..|steps| - 1])
      && LooselyGuarded(DoAll(ttl, s, steps[..|steps| - 1]), steps[|steps| - 1])
  }

  const TTL: Ttl := Ttl(36000, 2592000)
  const NOBODY: System := System(Empty(0), [])

  lemma Go(steps: seq<Step>, e: Step, before: System, after: System) returns (more: seq<Step>)
    requires AlwaysLoose(TTL, NOBODY, steps) && DoAll(TTL, NOBODY, steps) == before
    requires LooselyGuarded(before, e) && Do(TTL, before, e) == after
    ensures AlwaysLoose(TTL, NOBODY, more) && DoAll(TTL, NOBODY, more) == after
  {
    more := steps + [e];
    assert more[..|steps|] == steps;
  }

  // One more command of call i, from one known state to the next.
  lemma GoOn(steps: seq<Step>, i: nat, db: Auth, calls: seq<Call>, next: Auth, c: Call) returns (more: seq<Step>)
    requires AlwaysLoose(TTL, NOBODY, steps) && DoAll(TTL, NOBODY, steps) == System(db, calls)
    requires i < |calls| && Advance(TTL, db, calls[i]) == (next, c)
    requires calls[i].Minting? && calls[i].f in db.families ==> db.families[calls[i].f].refresh == calls[i].r
    ensures AlwaysLoose(TTL, NOBODY, more) && DoAll(TTL, NOBODY, more) == System(next, calls[i := c])
  {
    more := Go(steps, Proceed(i), System(db, calls), System(next, calls[i := c]));
  }

  lemma Arrive(steps: seq<Step>, r: nat, logout: bool, db: Auth, calls: seq<Call>) returns (more: seq<Step>)
    requires AlwaysLoose(TTL, NOBODY, steps) && DoAll(TTL, NOBODY, steps) == System(db, calls) && r < |db.minted|
    ensures AlwaysLoose(TTL, NOBODY, more) && DoAll(TTL, NOBODY, more) == System(db, calls + [Looking(r, logout)])
  {
    more := Go(steps, Start(r, logout), System(db, calls), System(db, calls + [Looking(r, logout)]));
  }

  // The one session of the run below, just opened.
  lemma JustOpened() returns (steps: seq<Step>)
    ensures AlwaysLoose(TTL, NOBODY, steps) && DoAll(TTL, NOBODY, steps) == System(Login(TTL, Empty(0)), [])
    ensures var db := Login(TTL, Empty(0));
      && LiveLookup(db, 0) && db.lookups[0].family == 0 && LiveFamily(db, 0)
      && db.families == map[0 := Family(0, 0, 2592000)] && |db.minted| == 1
  {
    assert DoAll(TTL, NOBODY, []) == NOBODY;
    steps := Go([], NewLogin, NOBODY, System(Login(TTL, Empty(0)), []));
  }

  // Two rotations and a logout of that session arrive.
  lemma AllArrive() returns (steps: seq<Step>)
    ensures AlwaysLoose(TTL, NOBODY, steps)
    ensures DoAll(TTL, NOBODY, steps) ==
      System(Login(TTL, Empty(0)), [Looking(0, false), Looking(0, false), Looking(0, true)])
  {
    hide DoAll;
    hide AlwaysLoose;
    hide Login;
    var db := Login(TTL, Empty(0));
    steps := JustOpened();
    steps := Arrive(steps, 0, false, db, []);
    steps := Arrive(steps, 0, false, db, [Looking(0, false)]);
    steps := Arrive(steps, 0, true, db, [Looking(0, false), Looking(0, false)]);
  }

  // A rotation reads the lookup and the family, and finds itself current.
  lemma HasRead(steps: seq<Step>, i: nat, calls: seq<Call>) returns (more: seq<Step>)
    requires var db := Login(TTL, Empty(0));
      AlwaysLoose(TTL, NOBODY, steps) && DoAll(TTL, NOBODY, steps) == System(db, calls)
    requires i < |calls| && calls[i] == Looking(0, false)
    ensures AlwaysLoose(TTL, NOBODY, more)
    ensures DoAll(TTL, NOBODY, more) == System(Login(TTL, Empty(0)), calls[i := Accepting(0, 0, 0)])
  {
    var first := JustOpened();
    hide DoAll;
    hide AlwaysLoose;
    hide Login;
    var db := Login(TTL, Empty(0));
    more := GoOn(steps, i, db, calls, db, Reading(0, 0));
    more := GoOn(more, i, db, calls[i := Reading(0, 0)], db, Accepting(0, 0, 0));
    assert calls[i := Reading(0, 0)][i := Accepting(0, 0, 0)] == calls[i := Accepting(0, 0, 0)];
  }

  // All have read that their refresh is current.
  lemma AllHaveRead() returns (steps: seq<Step>)
    ensures AlwaysLoose(TTL, NOBODY, steps)
    ensures DoAll(TTL, NOBODY, steps) ==
      System(Login(TTL, Empty(0)),
             [Accepting(0, 0, 0), Accepting(0, 0, 0), Blacklisting(0, Family(0, 0, 2592000), true)])
  {
    var first := JustOpened();
    hide DoAll;
    hide AlwaysLoose;
    hide Login;
    var db := Login(TTL, Empty(0));
    var check := Accepting(0, 0, 0);
    steps := AllArrive();
    steps := HasRead(steps, 0, [Looking(0, false), Looking(0, false), Looking(0, true)]);
    steps := HasRead(steps, 1, [check, Looking(0, false), Looking(0, true)]);
    steps := GoOn(steps, 2, db, [check, check, Looking(0, true)], db, Rereading(0, true));
    steps := GoOn(steps, 2, db, [check, check, Rereading(0, true)], db, Blacklisting(0, Family(0, 0, 2592000), true));
  }

  function Forgotten(db: Auth): Auth {
    DropFamily(DropLookup(Blacklist(TTL, db, 0), 0), 0)
  }

  // The database after both mints, with the logout in between.
  lemma TwoAccepted()
    ensures var minted := Mint(TTL, Blacklist(TTL, Login(TTL, Empty(0)), 0), 0);
      && minted.families[0].refresh == 1
      && var db := Mint(TTL, Forgotten(Blacklist(TTL, minted, 0)), 0); !OneEach(db)
  {
    var minted := Mint(TTL, Blacklist(TTL, Login(TTL, Empty(0)), 0), 0);
    var db := Mint(TTL, Forgotten(Blacklist(TTL, minted, 0)), 0);
    assert Accepted(db, 1) && Accepted(db, 2) && db.issued[1].family == db.issued[2].family;
  }

  /** The first rotation mints, the logout removes the session, the second rotation mints: two access tokens of the
      session are accepted, although each mint found its refresh still named or the session gone. */
  lemma GoneIsNotEnough() returns (steps: seq<Step>)
    ensures AlwaysLoose(TTL, NOBODY, steps) && !OneEach(DoAll(TTL, NOBODY, steps).db)
  {
    TwoAccepted();
    steps := JustOpened();
    steps := AllHaveRead();
    hide DoAll;
    hide AlwaysLoose;
    hide OneEach;
    hide Login;
    hide Blacklist;
    var db := Login(TTL, Empty(0));
    var calls := [Accepting(0, 0, 0), Accepting(0, 0, 0), Blacklisting(0, Family(0, 0, 2592000), true)];
    steps := MintAndLogout(steps, db, calls);
  }

  lemma MintAndLogout(steps: seq<Step>, db: Auth, calls: seq<Call>) returns (more: seq<Step>)
    requires AlwaysLoose(TTL, NOBODY, steps) && DoAll(TTL, NOBODY, steps) == System(db, calls)
    requires calls == [Accepting(0, 0, 0), Accepting(0, 0, 0), Blacklisting(0, Family(0, 0, 2592000), true)]
    requires db.families == map[0 := Family(0, 0, 2592000)]
    ensures AlwaysLoose(TTL, NOBODY, more)
    ensures DoAll(TTL, NOBODY, more).db
      == Mint(TTL, Forgotten(Blacklist(TTL, Mint(TTL, Blacklist(TTL, db, 0), 0), 0)), 0)
  {
    hide DoAll;
    hide AlwaysLoose;
    var d1 := Blacklist(TTL, db, 0);
    more := GoOn(steps, 0, db, calls, d1, Minting(0, 0));
    var c1 := calls[0 := Minting(0, 0)];
    var d2, first := Mint(TTL, d1, 0), Forgetting(0, Pair(|d1.issued|, |d1.minted|, 0));
    more := GoOn(more, 0, d1, c1, d2, first);
    var c2 := c1[0 := first];
    var d3 := Blacklist(TTL, d2, 0);
    more := GoOn(more, 1, d2, c2, d3, Minting(0, 0));
    var c3 := c2[1 := Minting(0, 0)];
    var d4 := Blacklist(TTL, d3, 0);
    more := GoOn(more, 2, d3, c3, d4, DroppingLookup(0, 0, true));
    var c4 := c3[2 := DroppingLookup(0, 0, true)];
    var d5 := DropLookup(d4, 0);
    more := GoOn(more, 2, d4, c4, d5, DroppingFamily(0, true));
    var c5 := c4[2 := DroppingFamily(0, true)];
    var d6 := DropFamily(d5, 0);
    more := GoOn(more, 2, d5, c5, d6, Finished(None));
    var c6 := c5[2 := Finished(None)];
    more := GoOn(more, 1, d6, c6, Mint(TTL, d6, 0), Forgetting(0, Pair(|d6.issued|, |d6.minted|, 0)));
  }
}
