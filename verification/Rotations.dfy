/** Rotations and logouts split into their Redis commands, interleaved in any way. */
module Rotations {
  import opened Prelude
  import opened Sessions

  // Where one call to rotate or revoke stands: the command it sends next, and what it has read so far.
  // A finished rotation has an answer, a finished logout none.
  datatype Call =
    | Looking(r: nat, logout: bool)
    | Reading(r: nat, f: nat)
    | Closing(r: nat)
    | Accepting(r: nat, f: nat, access: nat)
    | Minting(r: nat, f: nat)
    | Forgetting(r: nat, pair: Pair)
    | Rereading(f: nat, logout: bool)
    | Blacklisting(f: nat, meta: Family, logout: bool)
    | DroppingLookup(f: nat, refresh: nat, logout: bool)
    | DroppingFamily(f: nat, logout: bool)
    | Finished(answer: Option<Result<Pair, AuthError>>)

  function Refusal(logout: bool, e: AuthError): Option<Result<Pair, AuthError>> {
    if logout then None else Some(Err(e))
  }

  function Advance(ttl: Ttl, db: Auth, c: Call): (Auth, Call) {
    match c
    case Looking(r, logout) =>
      (db, if !LiveLookup(db, r) then Finished(Refusal(logout, UnknownRefresh))
           else if logout then Rereading(db.lookups[r].family, true)
           else Reading(r, db.lookups[r].family))
    case Reading(r, f) =>
      (db, if !LiveFamily(db, f) then Closing(r)
           else if db.families[f].refresh != r then Rereading(f, false)
           else Accepting(r, f, db.families[f].access))
    case Closing(r) => (DropLookup(db, r), Finished(Some(Err(SessionClosed))))
    case Accepting(r, f, access) => (Blacklist(ttl, db, access), Minting(r, f))
    case Minting(r, f) => (Mint(ttl, db, f), Forgetting(r, Pair(|db.issued|, |db.minted|, f)))
    case Forgetting(r, pair) => (DropLookup(db, r), Finished(Some(Ok(pair))))
    case Rereading(f, logout) =>
      (db, if LiveFamily(db, f) then Blacklisting(f, db.families[f], logout) else DroppingFamily(f, logout))
    case Blacklisting(f, meta, logout) => (Blacklist(ttl, db, meta.access), DroppingLookup(f, meta.refresh, logout))
    case DroppingLookup(f, refresh, logout) => (DropLookup(db, refresh), DroppingFamily(f, logout))
    case DroppingFamily(f, logout) => (DropFamily(db, f), Finished(Refusal(logout, SuspiciousReuse)))
    case Finished(_) => (db, c)
  }

  datatype System = System(db: Auth, calls: seq<Call>)

  // A token nobody was given is refused at the lookup, so calls start with a minted one.
  datatype Step = Start(r: nat, logout: bool) | Proceed(i: nat) | NewLogin | Wait(seconds: nat)

  function Do(ttl: Ttl, s: System, e: Step): System {
    match e
    case Start(r, logout) => if r < |s.db.minted| then System(s.db, s.calls + [Looking(r, logout)]) else s
    case Proceed(i) =>
      if i >= |s.calls| then s
      else
        var next := Advance(ttl, s.db, s.calls[i]);
        System(next.0, s.calls[i := next.1])
    case NewLogin => System(Login(ttl, s.db), s.calls)
    case Wait(seconds) => System(s.db.(now := s.db.now + seconds), s.calls)
  }

  function DoAll(ttl: Ttl, s: System, steps: seq<Step>): System {
    if steps == [] then s else Do(ttl, DoAll(ttl, s, steps[..|steps| - 1]), steps[|steps| - 1])
  }

  // --- a call run alone is the atomic call --------------------------------------------------

  function Left(c: Call): nat {
    match c
    case Looking(_, _) => 7
    case Reading(_, _) => 6
    case Accepting(_, _, _) => 5
    case Rereading(_, _) => 5
    case Blacklisting(_, _, _) => 4
    case Minting(_, _) => 4
    case DroppingLookup(_, _, _) => 3
    case Forgetting(_, _) => 2
    case DroppingFamily(_, _) => 2
    case Closing(_) => 1
    case Finished(_) => 0
  }

  // The database and the answer after the remaining commands of a call, sent without interruption.
  function ToEnd(ttl: Ttl, db: Auth, c: Call): (Auth, Option<Result<Pair, AuthError>>)
    decreases Left(c)
  {
    if c.Finished? then (db, c.answer)
    else
      var next := Advance(ttl, db, c);
      ToEnd(ttl, next.0, next.1)
  }

  lemma RevokeAlone(ttl: Ttl, db: Auth, f: nat, logout: bool)
    ensures ToEnd(ttl, db, Rereading(f, logout)) == (RevokeFamily(ttl, db, f), Refusal(logout, SuspiciousReuse))
  {
    var answer := Refusal(logout, SuspiciousReuse);
    if LiveFamily(db, f) {
      var meta := db.families[f];
      var b := Blacklist(ttl, db, meta.access);
      var d := DropLookup(b, meta.refresh);
      assert ToEnd(ttl, d, DroppingFamily(f, logout)) == (DropFamily(d, f), answer);
      assert ToEnd(ttl, b, DroppingLookup(f, meta.refresh, logout)) == (DropFamily(d, f), answer);
    } else {
      assert ToEnd(ttl, db, DroppingFamily(f, logout)) == (DropFamily(db, f), answer);
    }
  }

  /** Run without interruption, the commands of rotate and revoke are the atomic calls, database and answer. */
  lemma AloneIsAtomic(ttl: Ttl, db: Auth, r: nat)
    ensures ToEnd(ttl, db, Looking(r, false)) == (Rotate(ttl, db, r).0, Some(Rotate(ttl, db, r).1))
    ensures ToEnd(ttl, db, Looking(r, true)) == (Revoke(ttl, db, r), None)
  {
    if LiveLookup(db, r) {
      var f := db.lookups[r].family;
      RevokeAlone(ttl, db, f, true);
      RevokeAlone(ttl, db, f, false);
      if !LiveFamily(db, f) {
        assert ToEnd(ttl, db, Closing(r)) == (DropLookup(db, r), Some(Err(SessionClosed)));
      } else if db.families[f].refresh == r {
        var b := Blacklist(ttl, db, db.families[f].access);
        var m, pair := Mint(ttl, b, f), Pair(|db.issued|, |db.minted|, f);
        assert ToEnd(ttl, m, Forgetting(r, pair)) == (DropLookup(m, r), Some(Ok(pair)));
        assert ToEnd(ttl, b, Minting(r, f)) == (DropLookup(m, r), Some(Ok(pair)));
        assert ToEnd(ttl, db, Accepting(r, f, db.families[f].access)) == (DropLookup(m, r), Some(Ok(pair)));
      }
      hide ToEnd;
    }
  }

  // --- every interleaving: a replaced refresh is never accepted again ---------------------------

  ghost predicate Replaced(db: Auth, r: nat) {
    r < |db.minted| && forall f | f in db.families :: db.families[f].refresh != r
  }

  lemma {:induction false} StaysReplaced(ttl: Ttl, s: System, r: nat, steps: seq<Step>)
    requires Replaced(s.db, r)
    ensures Replaced(DoAll(ttl, s, steps).db, r)
  {
    if steps != [] {
      StaysReplaced(ttl, s, r, steps[..|steps| - 1]);
    }
  }

  /** Once no session names a refresh as its current one, no call that reads the session afterwards accepts
      it, however the commands of all calls interleave. */
  lemma ReplacedNeverAccepted(ttl: Ttl, s: System, r: nat, steps: seq<Step>, i: nat)
    requires Replaced(s.db, r)
    requires var t := DoAll(ttl, s, steps); i < |t.calls| && t.calls[i].Reading? && t.calls[i].r == r
    ensures var t := DoAll(ttl, s, steps); !Do(ttl, t, Proceed(i)).calls[i].Accepting?
  {
    StaysReplaced(ttl, s, r, steps);
  }

  // --- one rotation of a session at a time --------------------------------------------------------

  // The session a call may still mint for.
  function MayMint(db: Auth, c: Call): Option<nat> {
    match c
    case Looking(r, false) => if r < |db.minted| then Some(db.minted[r]) else None
    case Reading(_, f) => Some(f)
    case Accepting(_, f, _) => Some(f)
    case Minting(_, f) => Some(f)
    case _ => None
  }

  ghost predicate Admitted(s: System, e: Step) {
    e.Start? && !e.logout && e.r < |s.db.minted| ==>
      forall i | 0 <= i < |s.calls| :: MayMint(s.db, s.calls[i]) != Some(s.db.minted[e.r])
  }

  ghost predicate NoOverlap(ttl: Ttl, s: System, steps: seq<Step>)
    decreases |steps|
  {
    steps != [] ==>
      NoOverlap(ttl, s, steps[..|steps| - 1]) && Admitted(DoAll(ttl, s, steps[..|steps| - 1]), steps[|steps| - 1])
  }

  ghost predicate Newest(db: Auth, jti: nat)
    requires jti < |db.issued|
  {
    forall k | jti < k < |db.issued| :: db.issued[k].family != db.issued[jti].family
  }

  ghost predicate AllDead(db: Auth, f: nat) {
    forall j | 0 <= j < |db.issued| && db.issued[j].family == f :: Dead(db, j)
  }

  ghost predicate Ids(ttl: Ttl, db: Auth) {
    && (ttl.refresh == 0 ==> db.families == map[])
    && (forall f | f in db.families :: f < db.sessions)
    && (forall r | r in db.lookups :: r < |db.minted| && db.lookups[r].family == db.minted[r])
    && (forall r | 0 <= r < |db.minted| :: db.minted[r] < db.sessions)
    && (forall j | 0 <= j < |db.issued| :: db.issued[j].family < db.sessions && db.issued[j].exp <= db.now + ttl.access)
  }

  ghost predicate OlderDead(db: Auth) {
    && (forall j | 0 <= j < |db.issued| :: Dead(db, j) || Newest(db, j))
    && (forall f | f in db.families :: db.families[f].access < |db.issued|
                                       && db.issued[db.families[f].access].family == f
                                       && Newest(db, db.families[f].access))
  }

  ghost predicate CallOk(db: Auth, c: Call) {
    match c
    case Looking(r, _) => r < |db.minted|
    case Reading(_, f) => f < db.sessions
    case Accepting(_, f, access) =>
      f < db.sessions && access < |db.issued| && db.issued[access].family == f && Newest(db, access)
    case Minting(_, f) => f < db.sessions && AllDead(db, f)
    case Blacklisting(_, meta, _) => meta.access < |db.issued|
    case _ => true
  }

  ghost predicate Apart(s: System) {
    forall i, k | 0 <= i < k < |s.calls| && MayMint(s.db, s.calls[i]).Some? ::
      MayMint(s.db, s.calls[i]) != MayMint(s.db, s.calls[k])
  }

  ghost predicate Safe(ttl: Ttl, s: System) {
    Ids(ttl, s.db) && OlderDead(s.db) && Apart(s) && forall c | c in s.calls :: CallOk(s.db, c)
  }

  // A step that mints nothing: tokens only die, entries only go.
  ghost predicate Harmless(s: Auth, t: Auth) {
    && t.issued == s.issued && t.minted == s.minted && t.sessions == s.sessions && s.now <= t.now
    && (forall f | f in t.families :: f in s.families && t.families[f] == s.families[f])
    && (forall r | r in t.lookups :: r in s.lookups && t.lookups[r] == s.lookups[r])
    && (forall j | 0 <= j < |s.issued| && Dead(s, j) :: Dead(t, j))
  }

  lemma HarmlessKeeps(ttl: Ttl, s: Auth, t: Auth)
    requires Harmless(s, t) && Ids(ttl, s) && OlderDead(s)
    ensures Ids(ttl, t) && OlderDead(t)
    ensures forall j | 0 <= j < |s.issued| && Newest(s, j) :: Newest(t, j)
  {
    forall j | 0 <= j < |s.issued|
      ensures Newest(s, j) ==> Newest(t, j)
      ensures Dead(s, j) ==> Dead(t, j)
    {
    }
  }

  lemma HarmlessCall(s: Auth, t: Auth, c: Call)
    requires Harmless(s, t) && CallOk(s, c)
    ensures CallOk(t, c) && MayMint(t, c) == MayMint(s, c)
  {
    if c.Accepting? {
      assert Newest(t, c.access);
    }
  }

  lemma HarmlessSteps(ttl: Ttl, s: Auth, jti: nat, r: nat, f: nat, seconds: nat)
    requires Ids(ttl, s)
    ensures Harmless(s, DropLookup(s, r)) && Harmless(s, DropFamily(s, f)) && Harmless(s, s.(now := s.now + seconds))
    ensures Harmless(s, s)
    ensures jti < |s.issued| ==> Harmless(s, Blacklist(ttl, s, jti)) && Dead(Blacklist(ttl, s, jti), jti)
  {
    if jti < |s.issued| {
      var b := Blacklist(ttl, s, jti);
      forall j | 0 <= j < |s.issued| && Dead(s, j)
        ensures Dead(b, j)
      {
      }
    }
  }

  // Minting for a session all of whose tokens are dead, or for a new one.
  lemma MintSafe(ttl: Ttl, s: Auth, f: nat)
    requires Ids(ttl, s) && OlderDead(s) && AllDead(s, f) && f <= s.sessions
    ensures var t := Mint(ttl, s, f).(sessions := if f == s.sessions then f + 1 else s.sessions);
      Ids(ttl, t) && OlderDead(t)
  {
    var t := Mint(ttl, s, f).(sessions := if f == s.sessions then f + 1 else s.sessions);
    forall j | 0 <= j < |s.issued|
      ensures Dead(s, j) ==> Dead(t, j)
      ensures Newest(s, j) && s.issued[j].family != f ==> Newest(t, j)
    {
    }
    assert Newest(t, |s.issued|);
    forall j | 0 <= j < |t.issued|
      ensures Dead(t, j) || Newest(t, j)
    {
      if j < |s.issued| {
        assert Dead(s, j) || Newest(s, j);
      }
    }
  }

  lemma MintCall(ttl: Ttl, s: Auth, f: nat, c: Call)
    requires CallOk(s, c) && MayMint(s, c) != Some(f)
    ensures var t := Mint(ttl, s, f).(sessions := if f == s.sessions then f + 1 else s.sessions);
      CallOk(t, c) && MayMint(t, c) == MayMint(s, c)
  {
    var t := Mint(ttl, s, f).(sessions := if f == s.sessions then f + 1 else s.sessions);
    if c.Accepting? {
      assert Newest(t, c.access);
    }
    if c.Minting? {
      forall j | 0 <= j < |t.issued| && t.issued[j].family == c.f
        ensures Dead(t, j)
      {
        assert j < |s.issued| && Dead(s, j);
      }
    }
  }

  lemma FreshSession(ttl: Ttl, db: Auth, c: Call)
    requires Ids(ttl, db) && CallOk(db, c)
    ensures MayMint(db, c) != Some(db.sessions)
  {
  }

  lemma NothingYet(ttl: Ttl, db: Auth)
    requires Ids(ttl, db)
    ensures AllDead(db, db.sessions)
  {
  }

  lemma AcceptedMoves(ttl: Ttl, db: Auth, f: nat, access: nat)
    requires Ids(ttl, db) && OlderDead(db) && f < db.sessions
    requires access < |db.issued| && db.issued[access].family == f && Newest(db, access)
    ensures var t := Blacklist(ttl, db, access); AllDead(t, f) && Harmless(db, t)
  {
    var t := Blacklist(ttl, db, access);
    HarmlessSteps(ttl, db, access, 0, 0, 0);
    forall j | 0 <= j < |db.issued| && db.issued[j].family == f
      ensures Dead(t, j)
    {
      if j != access {
        assert Dead(db, j) || Newest(db, j);
        assert Dead(db, j);
      }
    }
  }

  // Reading calls stay sound, whatever they find.
  lemma ReadMoves(ttl: Ttl, db: Auth, c: Call)
    requires Ids(ttl, db) && OlderDead(db) && CallOk(db, c) && (c.Looking? || c.Reading? || c.Rereading? || c.Finished?)
    ensures var next := Advance(ttl, db, c);
      && next.0 == db && CallOk(db, next.1)
      && (MayMint(db, next.1).Some? ==> MayMint(db, next.1) == MayMint(db, c))
  {
    hide Newest;
  }

  // The call that moved: its new place is sound, and it may mint for no more than before.
  lemma MovedCall(ttl: Ttl, db: Auth, c: Call)
    requires Ids(ttl, db) && OlderDead(db) && CallOk(db, c)
    ensures var next := Advance(ttl, db, c);
      && CallOk(next.0, next.1)
      && (MayMint(next.0, next.1).Some? ==> MayMint(next.0, next.1) == MayMint(db, c))
      && (if c.Minting? then next.0 == Mint(ttl, db, c.f) else Harmless(db, next.0))
  {
    match c
    case Accepting(r, f, access) => AcceptedMoves(ttl, db, f, access);
    case Blacklisting(_, _, _) => DropsMove(ttl, db, c);
    case Closing(_) => DropsMove(ttl, db, c);
    case Forgetting(_, _) => DropsMove(ttl, db, c);
    case DroppingLookup(_, _, _) => DropsMove(ttl, db, c);
    case DroppingFamily(_, _) => DropsMove(ttl, db, c);
    case Minting(_, _) =>
    case _ =>
      ReadMoves(ttl, db, c);
      HarmlessSteps(ttl, db, 0, 0, 0, 0);
    hide Harmless;
    hide Newest;
    hide Dead;
  }

  // The commands that only take something away.
  lemma DropsMove(ttl: Ttl, db: Auth, c: Call)
    requires Ids(ttl, db) && OlderDead(db) && CallOk(db, c)
    requires c.Closing? || c.Forgetting? || c.Blacklisting? || c.DroppingLookup? || c.DroppingFamily?
    ensures var next := Advance(ttl, db, c);
      CallOk(next.0, next.1) && MayMint(next.0, next.1).None? && Harmless(db, next.0)
  {
    match c
    case Blacklisting(f, meta, _) => HarmlessSteps(ttl, db, meta.access, 0, 0, 0);
    case Closing(r) => HarmlessSteps(ttl, db, 0, r, 0, 0);
    case Forgetting(r, _) => HarmlessSteps(ttl, db, 0, r, 0, 0);
    case DroppingLookup(f, refresh, _) => HarmlessSteps(ttl, db, 0, refresh, 0, 0);
    case DroppingFamily(f, _) => HarmlessSteps(ttl, db, 0, 0, f, 0);
    hide Harmless;
    hide Newest;
    hide Dead;
  }

  lemma ProceedKeeps(ttl: Ttl, s: System, i: nat)
    requires Safe(ttl, s) && i < |s.calls|
    ensures Safe(ttl, Do(ttl, s, Proceed(i)))
  {
    var t := Do(ttl, s, Proceed(i));
    var c := s.calls[i];
    MovedCall(ttl, s.db, c);
    if c.Minting? {
      MintSafe(ttl, s.db, c.f);
    } else {
      HarmlessKeeps(ttl, s.db, t.db);
    }
    forall k | 0 <= k < |s.calls| && k != i
      ensures CallOk(t.db, t.calls[k]) && MayMint(t.db, t.calls[k]) == MayMint(s.db, s.calls[k])
    {
      assert s.calls[k] in s.calls;
      if c.Minting? {
        MintCall(ttl, s.db, c.f, s.calls[k]);
      } else {
        HarmlessCall(s.db, t.db, s.calls[k]);
      }
    }
    hide Ids;
    hide OlderDead;
    hide CallOk;
    hide MayMint;
    hide Advance;
    hide Mint;
    hide Harmless;
  }

  lemma StartKeeps(ttl: Ttl, s: System, r: nat, logout: bool)
    requires Safe(ttl, s) && Admitted(s, Start(r, logout)) && r < |s.db.minted|
    ensures Safe(ttl, Do(ttl, s, Start(r, logout)))
  {
    hide Ids;
    hide OlderDead;
    forall c | c in s.calls + [Looking(r, logout)]
      ensures CallOk(s.db, c)
    {
    }
    forall k | 0 <= k < |s.calls| && MayMint(s.db, s.calls[k]).Some?
      ensures MayMint(s.db, s.calls[k]) != MayMint(s.db, Looking(r, logout))
    {
    }
    hide CallOk;
    hide MayMint;
  }

  // A step that leaves the calls where they are.
  lemma BystandersKeep(ttl: Ttl, s: System, db: Auth)
    requires Safe(ttl, s) && Ids(ttl, db) && OlderDead(db)
    requires forall c | c in s.calls :: CallOk(db, c) && MayMint(db, c) == MayMint(s.db, c)
    ensures Safe(ttl, System(db, s.calls))
  {
    hide Ids;
    hide OlderDead;
    hide CallOk;
    hide MayMint;
  }

  lemma OtherStepKeeps(ttl: Ttl, s: System, e: Step)
    requires Safe(ttl, s) && !e.Proceed? && Admitted(s, e)
    ensures Safe(ttl, Do(ttl, s, e))
  {
    hide Ids;
    hide OlderDead;
    hide CallOk;
    hide MayMint;
    var t := Do(ttl, s, e);
    match e
    case Start(r, logout) =>
      if r < |s.db.minted| {
        StartKeeps(ttl, s, r, logout);
      }
    case NewLogin =>
      NothingYet(ttl, s.db);
      MintSafe(ttl, s.db, s.db.sessions);
      forall c | c in s.calls
        ensures CallOk(t.db, c) && MayMint(t.db, c) == MayMint(s.db, c)
      {
        FreshSession(ttl, s.db, c);
        MintCall(ttl, s.db, s.db.sessions, c);
      }
      BystandersKeep(ttl, s, t.db);
    case Wait(seconds) =>
      HarmlessSteps(ttl, s.db, 0, 0, 0, seconds);
      HarmlessKeeps(ttl, s.db, t.db);
      forall c | c in s.calls
        ensures CallOk(t.db, c) && MayMint(t.db, c) == MayMint(s.db, c)
      {
        HarmlessCall(s.db, t.db, c);
      }
      BystandersKeep(ttl, s, t.db);
  }

  lemma {:induction false} RunSafe(ttl: Ttl, now: int, steps: seq<Step>)
    requires NoOverlap(ttl, System(Empty(now), []), steps)
    ensures Safe(ttl, DoAll(ttl, System(Empty(now), []), steps))
  {
    if steps != [] {
      var n := |steps| - 1;
      RunSafe(ttl, now, steps[..n]);
      var before := DoAll(ttl, System(Empty(now), []), steps[..n]);
      hide Safe;
      if !steps[n].Proceed? {
        OtherStepKeeps(ttl, before, steps[n]);
      } else if steps[n].i < |before.calls| {
        ProceedKeeps(ttl, before, steps[n].i);
      }
    }
  }

  /** While no two rotations of one session overlap before their mint, at most one access token of the
      session is accepted at every instant, also in the middle of calls, whatever logouts do in between. */
  lemma OneLiveAccessMidCall(ttl: Ttl, now: int, steps: seq<Step>, i: nat, j: nat)
    requires NoOverlap(ttl, System(Empty(now), []), steps)
    requires var db := DoAll(ttl, System(Empty(now), []), steps).db;
      Accepted(db, i) && Accepted(db, j) && db.issued[i].family == db.issued[j].family
    ensures i == j
  {
    RunSafe(ttl, now, steps);
    var db := DoAll(ttl, System(Empty(now), []), steps).db;
    hide DoAll;
    assert (Dead(db, i) || Newest(db, i)) && (Dead(db, j) || Newest(db, j));
  }

  lemma Extend(ttl: Ttl, s: System, steps: seq<Step>, e: Step) returns (more: seq<Step>)
    ensures more == steps + [e] && DoAll(ttl, s, more) == Do(ttl, DoAll(ttl, s, steps), e)
  {
    more := steps + [e];
    assert more[..|steps|] == steps;
  }

  /** Two overlapping rotations of one refresh both read it as current, both succeed, and two access tokens
      of the session are accepted at once. */
  lemma OverlapAcceptsTwo()
    ensures exists steps ::
      var db := DoAll(Ttl(36000, 2592000), System(Empty(0), []), steps).db;
      Accepted(db, 1) && Accepted(db, 2) && db.issued[1].family == db.issued[2].family
  {
    var ttl, s := Ttl(36000, 2592000), System(Empty(0), []);
    assert DoAll(ttl, s, []) == s;
    var steps := Extend(ttl, s, [], NewLogin);
    steps := Extend(ttl, s, steps, Start(0, false));
    steps := Extend(ttl, s, steps, Start(0, false));
    steps := Extend(ttl, s, steps, Proceed(0));
    steps := Extend(ttl, s, steps, Proceed(1));
    steps := Extend(ttl, s, steps, Proceed(0));
    steps := Extend(ttl, s, steps, Proceed(1));
    var read := DoAll(ttl, s, steps);
    assert read.calls == [Accepting(0, 0, 0), Accepting(0, 0, 0)];
    steps := Extend(ttl, s, steps, Proceed(0));
    steps := Extend(ttl, s, steps, Proceed(1));
    steps := Extend(ttl, s, steps, Proceed(0));
    steps := Extend(ttl, s, steps, Proceed(1));
    var db := DoAll(ttl, s, steps).db;
    assert Accepted(db, 1) && Accepted(db, 2);
  }
}
