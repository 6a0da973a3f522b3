/** What becomes of a request that met a 401: sent again after a refresh that worked, given up after one that failed,
    and what the tab has stored meanwhile. */
module RetryOutcome {
  import opened Prelude
  import opened Sessions
  import opened ApiClient

  lemma {:induction false} TabRunTwice(t: Tab, a: seq<TabEvent>, b: seq<TabEvent>)
    ensures TabRun(t, a + b) == TabRun(TabRun(t, a), b)
  {
    if b == [] {
      assert a + b == a;
    } else {
      TabRunTwice(t, a, b[..|b| - 1]);
      assert (a + b)[..|a + b| - 1] == a + b[..|b| - 1];
    }
  }

  lemma TabRunOne(t: Tab, e: TabEvent)
    ensures TabRun(t, [e]) == TabStep(t, e)
  {
    assert [e][..0] == [] && TabRun(t, []) == t;
  }

  // --- the stages of a request that met a 401 ---------------------------------------------------

  // Waiting on the refresh in flight, whose answer is not in yet (None) or is (Some).
  ghost predicate Waits(t: Tab, i: nat, outcome: Option<Option<nat>>, refreshes: nat) {
    && i < |t.requests| && t.requests[i] == Request(false, true, 1, Waiting)
    && t.flight.Some? && t.flight.value.outcome == outcome && t.refreshes == refreshes
  }

  ghost predicate WokenWith(t: Tab, i: nat, access: Option<nat>) {
    i < |t.requests| && t.requests[i] == Request(false, true, 1, Woken(access))
  }

  // Sent for the second time, and never again.
  ghost predicate SentTwice(t: Tab, i: nat) {
    i < |t.requests| && t.requests[i].retried && t.requests[i].sends == 2
    && (t.requests[i].phase == Sent || t.requests[i].phase == Answered)
  }

  ghost predicate AnsweredAfter(t: Tab, i: nat, sends: nat) {
    i < |t.requests| && t.requests[i].sends == sends && t.requests[i].phase == Answered
  }

  lemma {:induction false} WaitsForAnswer(t: Tab, i: nat, refreshes: nat, events: seq<TabEvent>)
    requires Waits(t, i, None, refreshes) && forall e | e in events :: !e.RefreshAnswered?
    ensures Waits(TabRun(t, events), i, None, refreshes)
  {
    if events != [] {
      var n := |events| - 1;
      assert events[n] in events && forall e | e in events[..n] :: e in events;
      WaitsForAnswer(t, i, refreshes, events[..n]);
    }
  }

  lemma {:induction false} WaitsToSettle(t: Tab, i: nat, o: Option<nat>, refreshes: nat, events: seq<TabEvent>)
    requires Waits(t, i, Some(o), refreshes) && forall e | e in events :: !e.Settled?
    ensures Waits(TabRun(t, events), i, Some(o), refreshes)
  {
    if events != [] {
      var n := |events| - 1;
      assert events[n] in events && forall e | e in events[..n] :: e in events;
      WaitsToSettle(t, i, o, refreshes, events[..n]);
    }
  }

  lemma {:induction false} WaitsToResume(t: Tab, i: nat, access: Option<nat>, events: seq<TabEvent>)
    requires WokenWith(t, i, access) && Resumed(i) !in events
    ensures WokenWith(TabRun(t, events), i, access)
  {
    if events != [] {
      var n := |events| - 1;
      assert events[n] in events && forall e | e in events[..n] :: e in events;
      WaitsToResume(t, i, access, events[..n]);
    }
  }

  lemma {:induction false} TwiceForever(t: Tab, i: nat, events: seq<TabEvent>)
    requires SentTwice(t, i)
    ensures SentTwice(TabRun(t, events), i)
  {
    if events != [] {
      TwiceForever(t, i, events[..|events| - 1]);
    }
  }

  /** A request that was answered is never sent again. */
  lemma {:induction false} AnsweredForever(t: Tab, i: nat, sends: nat, events: seq<TabEvent>)
    requires AnsweredAfter(t, i, sends)
    ensures AnsweredAfter(TabRun(t, events), i, sends)
  {
    if events != [] {
      AnsweredForever(t, i, sends, events[..|events| - 1]);
    }
  }

  // --- the outcome ----------------------------------------------------------------------------------

  /** A request of the application that can be retried: sent once, not to an auth endpoint, with a refresh stored. */
  ghost predicate Retriable(t: Tab, i: nat) {
    i < |t.requests| && t.requests[i].phase == Sent && !t.requests[i].auth && !t.requests[i].retried && t.refresh.Some?
  }

  // The refresh that a 401 shares or starts has not been answered yet.
  ghost predicate Unanswered(t: Tab) {
    t.flight.None? || t.flight.value.outcome.None?
  }

  // From the 401 to the moment the request is woken with the answer to the shared refresh.
  lemma Awoken(t: Tab, i: nat, a: seq<TabEvent>, answer: Option<Pair>, b: seq<TabEvent>)
    requires TabOk(t) && Retriable(t, i) && Unanswered(t)
    requires (forall e | e in a :: !e.RefreshAnswered?) && forall e | e in b :: !e.Settled?
    ensures var answered := TabRun(t, [Replied(i, true)] + a + [RefreshAnswered(answer)]);
      && answered.refreshes == t.refreshes + (if t.flight.None? then 1 else 0)
      && (answer.Some? ==>
            answered.access == Some(answer.value.access) && answered.refresh == Some(answer.value.refresh))
      && !Unanswered(answered)
    ensures var woken := TabRun(t, [Replied(i, true)] + a + [RefreshAnswered(answer)] + b + [Settled]);
      WokenWith(woken, i, if answer.Some? then Some(answer.value.access) else None)
  {
    var o := if answer.Some? then Some(answer.value.access) else None;
    var refreshes := t.refreshes + if t.flight.None? then 1 else 0;
    assert t.requests[i] in t.requests;
    var t1 := TabStep(t, Replied(i, true));
    assert Waits(t1, i, None, refreshes);
    WaitsForAnswer(t1, i, refreshes, a);
    var t2 := TabRun(t1, a);
    var t3 := TabStep(t2, RefreshAnswered(answer));
    assert Waits(t3, i, Some(o), refreshes);
    WaitsToSettle(t3, i, o, refreshes, b);
    var t4 := TabRun(t3, b);
    assert WokenWith(TabStep(t4, Settled), i, o);
    TabRunOne(t, Replied(i, true));
    TabRunTwice(t, [Replied(i, true)], a);
    TabRunOne(t2, RefreshAnswered(answer));
    TabRunTwice(t, [Replied(i, true)] + a, [RefreshAnswered(answer)]);
    TabRunTwice(t, [Replied(i, true)] + a + [RefreshAnswered(answer)], b);
    TabRunOne(t4, Settled);
    TabRunTwice(t, [Replied(i, true)] + a + [RefreshAnswered(answer)] + b, [Settled]);
  }

  // A request from its 401 to its resumption, with anything else happening in between: before the refresh is
  // answered, before it settles, and before the request has its turn.
  ghost predicate Episode(i: nat, a: seq<TabEvent>, b: seq<TabEvent>, c: seq<TabEvent>) {
    && (forall e | e in a :: !e.RefreshAnswered?) && (forall e | e in b :: !e.Settled?) && Resumed(i) !in c
  }

  ghost function UpToAnswer(i: nat, a: seq<TabEvent>, answer: Option<Pair>): seq<TabEvent> {
    [Replied(i, true)] + a + [RefreshAnswered(answer)]
  }

  ghost function UpToResume(
      i: nat, a: seq<TabEvent>, answer: Option<Pair>, b: seq<TabEvent>, c: seq<TabEvent>): seq<TabEvent>
  {
    UpToAnswer(i, a, answer) + b + [Settled] + c + [Resumed(i)]
  }

  lemma ResumedOutcome(t: Tab, i: nat, access: Option<nat>)
    requires WokenWith(t, i, access)
    ensures var u := TabStep(t, Resumed(i));
      if access.Some? then SentTwice(u, i) && u.access == t.access && u.refresh == t.refresh
      else AnsweredAfter(u, i, 1) && u.access.None? && u.refresh.None?
  {
  }

  lemma EpisodeEnds(t: Tab, i: nat, a: seq<TabEvent>, answer: Option<Pair>, b: seq<TabEvent>, c: seq<TabEvent>)
    requires TabOk(t) && Retriable(t, i) && Unanswered(t) && Episode(i, a, b, c)
    ensures var u := TabRun(t, UpToResume(i, a, answer, b, c));
      if answer.Some? then SentTwice(u, i) else AnsweredAfter(u, i, 1) && u.access.None? && u.refresh.None?
  {
    hide TabOk;
    hide Retriable;
    hide Unanswered;
    hide WokenWith;
    Awoken(t, i, a, answer, b);
    var access := if answer.Some? then Some(answer.value.access) else None;
    var path := UpToAnswer(i, a, answer) + b + [Settled];
    var woken := TabRun(t, path);
    WaitsToResume(woken, i, access, c);
    TabRunTwice(t, path, c);
    ResumedOutcome(TabRun(woken, c), i, access);
    TabRunOne(TabRun(woken, c), Resumed(i));
    TabRunTwice(t, path + c, [Resumed(i)]);
    hide TabRun;
  }

  /** Over every run: a retriable request that gets a 401 and shares, or starts, a refresh not yet answered is sent
      exactly twice if that refresh succeeds and exactly once if it fails, for ever after. The tokens of a refresh that
      succeeds are stored when it is answered; after one that failed the request's turn leaves none. */
  lemma RetryDecided(before: seq<TabEvent>, i: nat, a: seq<TabEvent>, answer: Option<Pair>, b: seq<TabEvent>,
                     c: seq<TabEvent>, later: seq<TabEvent>)
    requires var t := TabRun(Fresh(), before); Retriable(t, i) && Unanswered(t)
    requires Episode(i, a, b, c)
    ensures var end := TabRun(Fresh(), before + UpToResume(i, a, answer, b, c) + later);
      i < |end.requests| && end.requests[i].sends == if answer.Some? then 2 else 1
    ensures var answered := TabRun(Fresh(), before + UpToAnswer(i, a, answer));
      answer.Some? ==> answered.access == Some(answer.value.access) && answered.refresh == Some(answer.value.refresh)
    ensures var resumed := TabRun(Fresh(), before + UpToResume(i, a, answer, b, c));
      answer.None? ==> resumed.access.None? && resumed.refresh.None?
  {
    TabRunOk(before);
    var t := TabRun(Fresh(), before);
    hide TabRun;
    hide TabOk;
    hide Retriable;
    hide Unanswered;
    Awoken(t, i, a, answer, b);
    EpisodeEnds(t, i, a, answer, b, c);
    TabRunTwice(Fresh(), before, UpToAnswer(i, a, answer));
    TabRunTwice(Fresh(), before, UpToResume(i, a, answer, b, c));
    TabRunTwice(Fresh(), before + UpToResume(i, a, answer, b, c), later);
    var resumed := TabRun(t, UpToResume(i, a, answer, b, c));
    if answer.Some? {
      TwiceForever(resumed, i, later);
    } else {
      AnsweredForever(resumed, i, 1, later);
    }
  }

  /** The same when the refresh in flight has been answered and has not settled. */
  lemma LateRetryDecided(before: seq<TabEvent>, i: nat, b: seq<TabEvent>, c: seq<TabEvent>, later: seq<TabEvent>)
    requires var t := TabRun(Fresh(), before); Retriable(t, i) && !Unanswered(t)
    requires Episode(i, [], b, c)
    ensures var t := TabRun(Fresh(), before);
      var run := before + [Replied(i, true)] + b + [Settled] + c + [Resumed(i)] + later;
      var end := TabRun(Fresh(), run);
      i < |end.requests| && end.requests[i].sends == if t.flight.value.outcome.value.Some? then 2 else 1
  {
    TabRunOk(before);
    var t := TabRun(Fresh(), before);
    var o := t.flight.value.outcome.value;
    assert t.requests[i] in t.requests;
    var t1 := TabStep(t, Replied(i, true));
    WaitsToSettle(t1, i, o, t.refreshes, b);
    var t2 := TabStep(TabRun(t1, b), Settled);
    WaitsToResume(t2, i, o, c);
    var t3 := TabRun(t2, c);
    ResumedOutcome(t3, i, o);
    var t4 := TabStep(t3, Resumed(i));
    if o.Some? {
      TwiceForever(t4, i, later);
    } else {
      AnsweredForever(t4, i, 1, later);
    }
    TabRunOne(t, Replied(i, true));
    TabRunOne(TabRun(t1, b), Settled);
    TabRunOne(t3, Resumed(i));
    hide TabRun;
    TabRunTwice(Fresh(), before, [Replied(i, true)]);
    TabRunTwice(Fresh(), before + [Replied(i, true)], b);
    TabRunTwice(Fresh(), before + [Replied(i, true)] + b, [Settled]);
    TabRunTwice(Fresh(), before + [Replied(i, true)] + b + [Settled], c);
    TabRunTwice(Fresh(), before + [Replied(i, true)] + b + [Settled] + c, [Resumed(i)]);
    TabRunTwice(Fresh(), before + [Replied(i, true)] + b + [Settled] + c + [Resumed(i)], later);
  }

  /** Any other answer is final: the request is never sent again, a 401 clears the tokens, and anything else leaves
      them alone. */
  lemma OtherAnswersAreFinal(before: seq<TabEvent>, i: nat, unauthorized: bool, later: seq<TabEvent>)
    requires var t := TabRun(Fresh(), before);
      i < |t.requests| && t.requests[i].phase == Sent && !(unauthorized && Retriable(t, i))
    ensures var t, u := TabRun(Fresh(), before), TabRun(Fresh(), before + [Replied(i, unauthorized)]);
      if unauthorized then u.access.None? && u.refresh.None? else u.access == t.access && u.refresh == t.refresh
    ensures var end := TabRun(Fresh(), before + [Replied(i, unauthorized)] + later);
      i < |end.requests| && end.requests[i].sends == TabRun(Fresh(), before).requests[i].sends
  {
    var t := TabRun(Fresh(), before);
    var u := TabStep(t, Replied(i, unauthorized));
    TabRunOne(t, Replied(i, unauthorized));
    TabRunTwice(Fresh(), before, [Replied(i, unauthorized)]);
    TabRunTwice(Fresh(), before + [Replied(i, unauthorized)], later);
    assert AnsweredAfter(u, i, t.requests[i].sends);
    AnsweredForever(u, i, t.requests[i].sends, later);
    hide TabRun;
  }

  /** A retriable 401 shares the refresh in flight, or posts the stored token when there is none; and a refresh that
      settled is over, so that the next one is posted anew. */
  lemma PostsWhatIsStored(before: seq<TabEvent>, i: nat)
    requires Retriable(TabRun(Fresh(), before), i)
    ensures var t, u := TabRun(Fresh(), before), TabRun(Fresh(), before + [Replied(i, true)]);
      if t.flight.Some? then u.flight == t.flight && u.refreshes == t.refreshes
      else u.flight == Some(Flight(t.refresh.value, None)) && u.refreshes == t.refreshes + 1
    ensures var t := TabRun(Fresh(), before + [Settled]); t.flight.Some? ==> t.flight.value.outcome.None?
  {
    TabRunOne(TabRun(Fresh(), before), Replied(i, true));
    TabRunTwice(Fresh(), before, [Replied(i, true)]);
    TabRunOne(TabRun(Fresh(), before), Settled);
    TabRunTwice(Fresh(), before, [Settled]);
    hide TabRun;
  }

  /** Every request the application issues is sent, in the order of issue. */
  lemma IssuedIsSent(before: seq<TabEvent>, auth: bool)
    ensures var t, u := TabRun(Fresh(), before), TabRun(Fresh(), before + [Issued(auth)]);
      u.requests == t.requests + [Request(auth, false, 1, Sent)]
  {
    TabRunOne(TabRun(Fresh(), before), Issued(auth));
    TabRunTwice(Fresh(), before, [Issued(auth)]);
    hide TabRun;
  }

  // --- how long tokens stay stored -----------------------------------------------------------------

  // A 401, a login or a logout.
  predicate Touches(e: TabEvent) {
    (e.Replied? && e.unauthorized) || e.LoggedIn? || e.LoggedOut?
  }

  /** A request woken by a refresh that failed has its turn. */
  ghost predicate LateTurn(t: Tab, events: seq<TabEvent>)
    decreases |events|
  {
    events != [] &&
      (LateTurn(t, events[..|events| - 1])
       || var e, u := events[|events| - 1], TabRun(t, events[..|events| - 1]);
          e.Resumed? && e.i < |u.requests| && u.requests[e.i].phase == Woken(None))
  }

  lemma TokensStep(t: Tab, e: TabEvent)
    requires !(t.flight.Some? && t.flight.value.outcome.None?) && !Touches(e)
    ensures var u := TabStep(t, e);
      && (if e.Resumed? && e.i < |t.requests| && t.requests[e.i].phase == Woken(None)
          then u.access.None? && u.refresh.None? else u.access == t.access && u.refresh == t.refresh)
      && !(u.flight.Some? && u.flight.value.outcome.None?)
  {
  }

  /** Until the next 401, login or logout, stored tokens stay exactly as long as no request woken by an earlier failed
      refresh has its turn. */
  lemma {:induction false} TokensStayIff(t: Tab, events: seq<TabEvent>)
    requires t.access.Some? && t.refresh.Some? && !(t.flight.Some? && t.flight.value.outcome.None?)
    requires forall e | e in events :: !Touches(e)
    ensures var u := TabRun(t, events);
      && (u.access == t.access && u.refresh == t.refresh <==> !LateTurn(t, events))
      && (LateTurn(t, events) ==> u.access.None? && u.refresh.None?)
      && !(u.flight.Some? && u.flight.value.outcome.None?)
  {
    if events != [] {
      var n := |events| - 1;
      assert events[n] in events && forall e | e in events[..n] :: e in events;
      TokensStayIff(t, events[..n]);
      TokensStep(TabRun(t, events[..n]), events[n]);
      hide TabStep;
      hide Touches;
    }
  }
}
