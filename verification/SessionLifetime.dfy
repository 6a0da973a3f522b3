/** How long a pair of tokens is good for: exactly until it expires, or until its refresh is used or logged out. */
module SessionLifetime {
  import opened Prelude
  import opened Sessions

  /** The pair was given out at this instant: by a login, or by a successful rotation. */
  ghost predicate GivenBy(ttl: Ttl, s: Auth, e: Event, p: Pair) {
    match e
    case DoLogin => p == Pair(|s.issued|, |s.minted|, s.sessions)
    case DoRotate(r) => Rotate(ttl, s, r).1 == Ok(p)
    case _ => false
  }

  /** Some later call presented the refresh, to rotate or to log out, within its lifetime. */
  ghost predicate Ended(ttl: Ttl, s: Auth, later: seq<Event>, r: nat, end: int)
    decreases |later|
  {
    later != [] &&
      (Ended(ttl, s, later[..|later| - 1], r, end)
       || ((later[|later| - 1] == DoRotate(r) || later[|later| - 1] == DoRevoke(r))
           && Run(ttl, s, later[..|later| - 1]).now < end))
  }

  // --- the two states of a pair -----------------------------------------------------------

  ghost predicate Given(ttl: Ttl, s: Auth, p: Pair, at: int) {
    && p.access < |s.issued| && s.issued[p.access].exp == at + ttl.access && p.refresh < |s.minted| && at <= s.now
  }

  ghost predicate Open(ttl: Ttl, s: Auth, p: Pair, at: int) {
    && p.access !in s.blacklist
    && (ttl.refresh > 0 ==>
          && p.refresh in s.lookups && s.lookups[p.refresh] == Lookup(p.family, at + ttl.refresh)
          && p.family in s.families && s.families[p.family] == Family(p.refresh, p.access, at + ttl.refresh))
  }

  ghost predicate Over(s: Auth, p: Pair)
    requires p.access < |s.issued|
  {
    p.refresh !in s.lookups && Dead(s, p.access)
  }

  ghost predicate KnownBlacklist(s: Auth) {
    forall j | j in s.blacklist :: j < |s.issued|
  }

  lemma LoginOpen(ttl: Ttl, s: Auth)
    requires KnownIds(s) && KnownBlacklist(s)
    ensures var t, p := Login(ttl, s), Pair(|s.issued|, |s.minted|, s.sessions);
      Given(ttl, t, p, s.now) && Open(ttl, t, p, s.now)
  {
  }

  lemma RotationOpen(ttl: Ttl, s: Auth, r: nat)
    requires KnownIds(s) && OneToOne(s) && KnownBlacklist(s) && LiveLookup(s, r) && ttl.refresh > 0
    ensures var t, p := Rotate(ttl, s, r).0, Pair(|s.issued|, |s.minted|, s.lookups[r].family);
      Rotate(ttl, s, r).1 == Ok(p) && Given(ttl, t, p, s.now) && Open(ttl, t, p, s.now)
  {
    LookupsLiveTogether(ttl, s, r);
    KnownLookups(s);
  }

  lemma GivenOpen(ttl: Ttl, s: Auth, e: Event, p: Pair)
    requires Consistent(ttl, s) && KnownBlacklist(s) && GivenBy(ttl, s, e, p)
    ensures var t := Apply(ttl, s, e); Given(ttl, t, p, s.now) && Open(ttl, t, p, s.now)
  {
    if e.DoRotate? {
      RotationOpen(ttl, s, e.r);
    } else {
      LoginOpen(ttl, s);
    }
    hide Given;
    hide Open;
    hide KnownIds;
    hide OthersDead;
    hide OneToOne;
  }

  lemma StepKnown(ttl: Ttl, s: Auth, e: Event)
    requires KnownIds(s) && KnownBlacklist(s)
    ensures KnownBlacklist(Apply(ttl, s, e))
  {
  }

  lemma StepGiven(ttl: Ttl, s: Auth, e: Event, p: Pair, at: int)
    requires Given(ttl, s, p, at)
    ensures Given(ttl, Apply(ttl, s, e), p, at)
  {
  }

  lemma LoginLeavesOpen(ttl: Ttl, s: Auth, p: Pair, at: int)
    requires KnownIds(s) && Given(ttl, s, p, at) && Open(ttl, s, p, at)
    ensures Open(ttl, Login(ttl, s), p, at)
  {
  }

  lemma RotateLeavesOpen(ttl: Ttl, s: Auth, r: nat, p: Pair, at: int)
    requires KnownIds(s) && OneToOne(s) && Given(ttl, s, p, at) && Open(ttl, s, p, at)
    requires LiveLookup(s, r) && r != p.refresh && ttl.refresh > 0
    ensures Open(ttl, Rotate(ttl, s, r).0, p, at)
  {
    LookupsLiveTogether(ttl, s, r);
    assert s.lookups[r].family != p.family && s.families[s.lookups[r].family].access != p.access;
  }

  lemma RevokeLeavesOpen(ttl: Ttl, s: Auth, r: nat, p: Pair, at: int)
    requires KnownIds(s) && OneToOne(s) && Given(ttl, s, p, at) && Open(ttl, s, p, at)
    requires LiveLookup(s, r) && r != p.refresh && ttl.refresh > 0
    ensures Open(ttl, Revoke(ttl, s, r), p, at)
  {
    LookupsLiveTogether(ttl, s, r);
    assert s.lookups[r].family != p.family && s.families[s.lookups[r].family].access != p.access;
  }

  // A call with another token, or with this one after its end, leaves the pair open.
  lemma OtherLeavesOpen(ttl: Ttl, s: Auth, e: Event, p: Pair, at: int)
    requires Consistent(ttl, s) && Given(ttl, s, p, at) && Open(ttl, s, p, at)
    requires e == DoRotate(p.refresh) || e == DoRevoke(p.refresh) ==> s.now >= at + ttl.refresh
    ensures Open(ttl, Apply(ttl, s, e), p, at)
  {
    match e
    case DoLogin => LoginLeavesOpen(ttl, s, p, at);
    case DoRotate(r) =>
      if LiveLookup(s, r) {
        RotateLeavesOpen(ttl, s, r, p, at);
      }
    case DoRevoke(r) =>
      if LiveLookup(s, r) {
        RevokeLeavesOpen(ttl, s, r, p, at);
      }
    case Tick(_) =>
    hide KnownIds;
    hide OthersDead;
    hide OneToOne;
    hide Login;
    hide Given;
  }

  lemma UseEnds(ttl: Ttl, s: Auth, e: Event, p: Pair, at: int)
    requires Consistent(ttl, s) && Given(ttl, s, p, at) && Open(ttl, s, p, at)
    requires (e == DoRotate(p.refresh) || e == DoRevoke(p.refresh)) && s.now < at + ttl.refresh
    ensures Given(ttl, Apply(ttl, s, e), p, at) && Over(Apply(ttl, s, e), p)
  {
    hide OthersDead;
  }

  lemma OverStays(ttl: Ttl, s: Auth, e: Event, p: Pair, at: int)
    requires Consistent(ttl, s) && Given(ttl, s, p, at) && Over(s, p)
    ensures Given(ttl, Apply(ttl, s, e), p, at) && Over(Apply(ttl, s, e), p)
  {
    hide OthersDead;
  }

  // --- the lifetime ------------------------------------------------------------------------

  lemma {:induction false} PairLasts(ttl: Ttl, s: Auth, later: seq<Event>, p: Pair, at: int)
    requires Consistent(ttl, s) && Given(ttl, s, p, at) && Open(ttl, s, p, at)
    ensures var t := Run(ttl, s, later);
      && Consistent(ttl, t) && Given(ttl, t, p, at)
      && (if Ended(ttl, s, later, p.refresh, at + ttl.refresh) then Over(t, p) else Open(ttl, t, p, at))
  {
    if later != [] {
      var n := |later| - 1;
      PairLasts(ttl, s, later[..n], p, at);
      var t := Run(ttl, s, later[..n]);
      StepKeeps(ttl, t, later[n]);
      StepGiven(ttl, t, later[n], p, at);
      hide Consistent;
      hide Given;
      hide Open;
      if Ended(ttl, s, later[..n], p.refresh, at + ttl.refresh) {
        OverStays(ttl, t, later[n], p, at);
      } else if (later[n] == DoRotate(p.refresh) || later[n] == DoRevoke(p.refresh)) && t.now < at + ttl.refresh {
        UseEnds(ttl, t, later[n], p, at);
      } else {
        OtherLeavesOpen(ttl, t, later[n], p, at);
      }
    }
  }

  lemma OpenAnswers(ttl: Ttl, s: Auth, p: Pair, at: int)
    requires Consistent(ttl, s) && Given(ttl, s, p, at) && Open(ttl, s, p, at)
    ensures Rotate(ttl, s, p.refresh).1.Ok? <==> s.now < at + ttl.refresh
    ensures Accepted(s, p.access) <==> s.now < at + ttl.access
  {
    hide OthersDead;
  }

  lemma OverAnswers(ttl: Ttl, s: Auth, p: Pair)
    requires p.access < |s.issued| && Over(s, p)
    ensures Rotate(ttl, s, p.refresh).1 == Err(UnknownRefresh) && !Accepted(s, p.access)
  {
  }

  /** From every run: the pair a login or a rotation gives at some instant is good in every continuation exactly for
      the two lifetimes from that instant, the access token and the refresh each for its own, unless a call presented
      the refresh while it was good; from then on neither is. */
  lemma PairLifetime(ttl: Ttl, now: int, before: seq<Event>, e: Event, p: Pair, later: seq<Event>)
    requires GivenBy(ttl, Run(ttl, Empty(now), before), e, p)
    ensures var s := Run(ttl, Empty(now), before);
      var given := Run(ttl, Empty(now), before + [e]);
      var after := Run(ttl, Empty(now), before + [e] + later);
      var ended := Ended(ttl, given, later, p.refresh, s.now + ttl.refresh);
      && (Rotate(ttl, after, p.refresh).1.Ok? <==> !ended && after.now < s.now + ttl.refresh)
      && (Accepted(after, p.access) <==> !ended && after.now < s.now + ttl.access)
  {
    var s := Run(ttl, Empty(now), before);
    var given := Run(ttl, Empty(now), before + [e]);
    RunKeeps(ttl, now, before);
    RunKnown(ttl, now, before);
    RunAppend(ttl, Empty(now), before, e);
    RunTwice(ttl, Empty(now), before + [e], later);
    hide Run;
    hide GivenBy;
    hide Ended;
    hide Consistent;
    hide Given;
    hide Open;
    hide Over;
    hide Rotate;
    hide Accepted;
    hide Apply;
    hide KnownBlacklist;
    GivenOpen(ttl, s, e, p);
    StepKeeps(ttl, s, e);
    PairLasts(ttl, given, later, p, s.now);
    var after := Run(ttl, given, later);
    if Ended(ttl, given, later, p.refresh, s.now + ttl.refresh) {
      GivenKnown(ttl, after, p, s.now);
      OverAnswers(ttl, after, p);
    } else {
      OpenAnswers(ttl, after, p, s.now);
    }
  }

  lemma GivenKnown(ttl: Ttl, s: Auth, p: Pair, at: int)
    requires Given(ttl, s, p, at)
    ensures p.access < |s.issued|
  {
  }

  lemma {:induction false} RunKnown(ttl: Ttl, now: int, events: seq<Event>)
    ensures KnownBlacklist(Run(ttl, Empty(now), events))
  {
    if events != [] {
      var n := |events| - 1;
      RunKnown(ttl, now, events[..n]);
      RunKeeps(ttl, now, events[..n]);
      StepKnown(ttl, Run(ttl, Empty(now), events[..n]), events[n]);
    }
  }

  /** In particular a pair nobody uses or logs out lives out both of its lifetimes, whatever happens to others. */
  lemma {:induction false} LeftAlone(ttl: Ttl, s: Auth, later: seq<Event>, r: nat, end: int)
    requires DoRotate(r) !in later && DoRevoke(r) !in later
    ensures !Ended(ttl, s, later, r, end)
  {
    if later != [] {
      LeftAlone(ttl, s, later[..|later| - 1], r, end);
    }
  }
}
