/** The tab and the server of one world, each by itself: what holds of either alone holds of it in the world. */
module Projections {
  import opened Prelude
  import opened Sessions
  import opened Rotations
  import opened ApiClient
  import opened Coalescing
  import Retry = RetryOutcome

  // What the tab sees of an event.
  function Seen(w: World, e: Coalescing.Event): seq<TabEvent> {
    match e
    case Ask(auth) => [Issued(auth)]
    case Answer(i, unauthorized) => [Replied(i, unauthorized)]
    case RefreshBack =>
      if w.call < |w.server.calls| && w.server.calls[w.call].Finished?
      then [RefreshAnswered(Granted(w.server.calls[w.call]))] else []
    case SettleFlight => [Settled]
    case WakeUp(i) => [Resumed(i)]
    case TabLogin =>
      var db := w.server.db;
      [LoggedIn(Pair(|db.issued|, |db.minted|, db.sessions))]
    case TabLogout => if w.tab.flight.None? && w.tab.refresh.Some? then [LoggedOut] else []
    case _ => []
  }

  function AllSeen(ttl: Ttl, w: World, events: seq<Coalescing.Event>): seq<TabEvent>
    decreases |events|
  {
    if events == [] then []
    else
      var n := |events| - 1;
      AllSeen(ttl, w, events[..n]) + Seen(History(ttl, w, events[..n]), events[n])
  }

  lemma TabStepAlone(ttl: Ttl, w: World, e: Coalescing.Event)
    ensures Happen(ttl, w, e).tab == TabRun(w.tab, Seen(w, e))
  {
    if Seen(w, e) != [] {
      Retry.TabRunOne(w.tab, Seen(w, e)[0]);
      assert Seen(w, e) == [Seen(w, e)[0]];
    }
    hide TabRun;
    assert TabRun(w.tab, []) == w.tab by {
      TabRunNothing(w.tab);
    }
  }

  lemma TabRunNothing(t: Tab)
    ensures TabRun(t, []) == t
  {
  }

  /** In every history of tab and server the tab is in a state it reaches alone, by what it sees of that history; so
      every result about the tab for any answers from the server holds with this one. */
  lemma {:induction false} TabAlone(ttl: Ttl, now: int, events: seq<Coalescing.Event>)
    ensures History(ttl, Opening(now), events).tab == TabRun(Fresh(), AllSeen(ttl, Opening(now), events))
  {
    if events == [] {
      TabRunNothing(Fresh());
    } else {
      var n := |events| - 1;
      var w := History(ttl, Opening(now), events[..n]);
      TabAlone(ttl, now, events[..n]);
      TabStepAlone(ttl, w, events[n]);
      Retry.TabRunTwice(Fresh(), AllSeen(ttl, Opening(now), events[..n]), Seen(w, events[n]));
      hide Happen;
      hide Seen;
      hide TabRun;
    }
  }

  // What the server does at an event, other than the tab's logout.
  function Served(w: World, e: Coalescing.Event): seq<Step> {
    match e
    case Answer(i, unauthorized) =>
      if StartsRefresh(w.tab, i, unauthorized) then [Start(w.tab.refresh.value, false)] else []
    case TabLogin => [NewLogin]
    case ServerCommand(i) => [Proceed(i)]
    case OtherStart(r, logout) =>
      if r < |w.server.db.minted| && w.server.db.minted[r] !in w.own then [Start(r, logout)] else []
    case OtherLogin => [NewLogin]
    case Pass(seconds) => [Rotations.Wait(seconds)]
    case _ => []
  }

  /** At every point of every history the next event moves the server by its own steps, at most one; a logout of the
      tab revokes the session of the stored refresh and leaves the calls alone. */
  lemma ServerAlone(ttl: Ttl, now: int, events: seq<Coalescing.Event>, e: Coalescing.Event)
    ensures var w := History(ttl, Opening(now), events); var v := Happen(ttl, w, e);
      if e.TabLogout? && w.tab.flight.None? && w.tab.refresh.Some?
      then v.server == System(Revoke(ttl, w.server.db, w.tab.refresh.value), w.server.calls)
      else v.server == DoAll(ttl, w.server, Served(w, e))
  {
    HistorySound(ttl, now, events);
    var w := History(ttl, Opening(now), events);
    StoredIsMinted(ttl, w);
    DoNothing(ttl, w.server);
    if Served(w, e) != [] {
      DoOne(ttl, w.server, Served(w, e)[0]);
      assert Served(w, e) == [Served(w, e)[0]];
    }
    hide History;
    hide DoAll;
    hide Sound;
    hide Login;
    hide Revoke;
  }

  lemma StoredIsMinted(ttl: Ttl, w: World)
    requires Sound(ttl, w)
    ensures w.tab.refresh.Some? ==> w.tab.refresh.value < |w.server.db.minted|
  {
  }

  lemma DoNothing(ttl: Ttl, s: System)
    ensures DoAll(ttl, s, []) == s
  {
  }

  lemma DoOne(ttl: Ttl, s: System, e: Step)
    ensures DoAll(ttl, s, [e]) == Do(ttl, s, e)
  {
    assert [e][..0] == [];
    DoNothing(ttl, s);
  }
}
