/** The browser's API client: one refresh for any number of 401 answers, and one retry per request. */
module ApiClient {
  import opened Prelude
  import opened Sessions

  // Waiting: on the shared refresh. Woken: the refresh settled, with the new access token or nothing.
  datatype Phase = Sent | Waiting | Woken(access: Option<nat>) | Answered

  // `auth` marks /auth/refresh, /auth/logout and /auth/login; `retried` is _retried.
  datatype Request = Request(auth: bool, retried: bool, sends: nat, phase: Phase)

  // refreshInFlight: the token it posted, and what its promise resolved to.
  datatype Flight = Flight(token: nat, outcome: Option<Option<nat>>)

  datatype Tab = Tab(
    access: Option<nat>, refresh: Option<nat>, flight: Option<Flight>, requests: seq<Request>, refreshes: nat)

  function Fresh(): Tab {
    Tab(None, None, None, [], 0)
  }

  function Cleared(t: Tab): Tab {
    t.(access := None, refresh := None)
  }

  function WithTokens(t: Tab, p: Pair): Tab {
    t.(access := Some(p.access), refresh := Some(p.refresh))
  }

  function SetPhase(t: Tab, i: nat, phase: Phase): Tab
    requires i < |t.requests|
  {
    t.(requests := t.requests[i := t.requests[i].(phase := phase)])
  }

  function Issue(t: Tab, auth: bool): Tab {
    t.(requests := t.requests + [Request(auth, false, 1, Sent)])
  }

  // A 401 on this request is answered by refreshing and retrying.
  predicate Retries(t: Tab, i: nat)
    requires i < |t.requests|
  {
    !t.requests[i].retried && !t.requests[i].auth && t.refresh.Some?
  }

  // The answer to request i starts a refresh of its own.
  predicate StartsRefresh(t: Tab, i: nat, unauthorized: bool) {
    && i < |t.requests| && t.requests[i].phase == Sent && unauthorized
    && Retries(t, i) && t.flight.None?
  }

  function Reply(t: Tab, i: nat, unauthorized: bool): Tab {
    if i >= |t.requests| || t.requests[i].phase != Sent then t
    else if !unauthorized then SetPhase(t, i, Answered)
    else if Retries(t, i) then
      var u := t.(requests := t.requests[i := t.requests[i].(retried := true, phase := Waiting)]);
      if t.flight.Some? then u else u.(flight := Some(Flight(t.refresh.value, None)), refreshes := t.refreshes + 1)
    else SetPhase(Cleared(t), i, Answered)
  }

  function RefreshAnswer(t: Tab, p: Option<Pair>): Tab {
    if t.flight.None? || t.flight.value.outcome.Some? then t
    else match p
      case Some(pair) => WithTokens(t, pair).(flight := Some(t.flight.value.(outcome := Some(Some(pair.access)))))
      case None => t.(flight := Some(t.flight.value.(outcome := Some(None))))
  }

  function WakeOne(q: Request, access: Option<nat>): Request {
    if q.phase == Waiting then q.(phase := Woken(access)) else q
  }

  function Wake(qs: seq<Request>, access: Option<nat>): seq<Request> {
    seq(|qs|, i requires 0 <= i < |qs| => WakeOne(qs[i], access))
  }

  function Settle(t: Tab): Tab {
    if t.flight.Some? && t.flight.value.outcome.Some?
    then t.(flight := None, requests := Wake(t.requests, t.flight.value.outcome.value))
    else t
  }

  function Resume(t: Tab, i: nat): Tab {
    if i >= |t.requests| || !t.requests[i].phase.Woken? then t
    else if t.requests[i].phase.access.Some?
    then t.(requests := t.requests[i := t.requests[i].(sends := t.requests[i].sends + 1, phase := Sent)])
    else SetPhase(Cleared(t), i, Answered)
  }

  // --- the module's variables, set and cleared in place --------------------------------

  class Client {
    var access: Option<nat>
    var refresh: Option<nat>
    var refreshInFlight: Option<Flight>
    var requests: seq<Request>
    var refreshes: nat

    ghost function State(): Tab
      reads this
    {
      Tab(access, refresh, refreshInFlight, requests, refreshes)
    }

    constructor ()
      ensures State() == Fresh()
    {
      access, refresh, refreshInFlight, requests, refreshes := None, None, None, [], 0;
    }

    method ClearAuth()
      modifies this
      ensures State() == Cleared(old(State()))
    {
      access := None;
      refresh := None;
    }

    method SetTokens(p: Pair)
      modifies this
      ensures State() == WithTokens(old(State()), p)
    {
      access := Some(p.access);
      refresh := Some(p.refresh);
    }

    /** getOrStartRefresh; `posted` is the token of a request that has to go out now. */
    method GetOrStartRefresh() returns (posted: Option<nat>)
      requires refresh.Some?
      modifies this
      ensures posted == if old(refreshInFlight).None? then old(refresh) else None
      ensures access == old(access) && refresh == old(refresh) && requests == old(requests)
      ensures refreshInFlight ==
        if old(refreshInFlight).Some? then old(refreshInFlight) else Some(Flight(refresh.value, None))
      ensures refreshes == old(refreshes) + if posted.Some? then 1 else 0
    {
      posted := None;
      if refreshInFlight.None? {
        refreshInFlight := Some(Flight(refresh.value, None));
        posted := refresh;
        refreshes := refreshes + 1;
      }
    }

    method OnResponse(i: nat, unauthorized: bool) returns (posted: Option<nat>)
      requires i < |requests| && requests[i].phase == Sent
      modifies this
      ensures State() == Reply(old(State()), i, unauthorized)
      ensures posted == if StartsRefresh(old(State()), i, unauthorized) then old(refresh) else None
    {
      posted := None;
      if unauthorized && !requests[i].retried && !requests[i].auth && refresh.Some? {
        requests := requests[i := requests[i].(retried := true)];
        posted := GetOrStartRefresh();
        requests := requests[i := requests[i].(phase := Waiting)];
        assert requests == old(requests)[i := old(requests)[i].(retried := true, phase := Waiting)];
        return;
      }
      if unauthorized {
        ClearAuth();
      }
      requests := requests[i := requests[i].(phase := Answered)];
    }

    method OnRefreshResponse(p: Option<Pair>)
      requires refreshInFlight.Some? && refreshInFlight.value.outcome.None?
      modifies this
      ensures State() == RefreshAnswer(old(State()), p)
    {
      match p
      case Some(pair) =>
        SetTokens(pair);
        refreshInFlight := Some(refreshInFlight.value.(outcome := Some(Some(pair.access))));
      case None =>
        refreshInFlight := Some(refreshInFlight.value.(outcome := Some(None)));
    }

    method OnSettled()
      requires refreshInFlight.Some? && refreshInFlight.value.outcome.Some?
      modifies this
      ensures State() == Settle(old(State()))
    {
      var access := refreshInFlight.value.outcome.value;
      refreshInFlight := None;
      for i := 0 to |requests|
        invariant State() == old(State()).(flight := None, requests := requests)
        invariant |requests| == |old(requests)|
        invariant forall k | 0 <= k < i :: requests[k] == WakeOne(old(requests)[k], access)
        invariant forall k | i <= k < |requests| :: requests[k] == old(requests)[k]
      {
        if requests[i].phase == Waiting {
          requests := requests[i := requests[i].(phase := Woken(access))];
        }
      }
      assert requests == Wake(old(requests), access);
    }

    method OnWoken(i: nat)
      requires i < |requests| && requests[i].phase.Woken?
      modifies this
      ensures State() == Resume(old(State()), i)
    {
      if requests[i].phase.access.Some? {
        requests := requests[i := requests[i].(sends := requests[i].sends + 1, phase := Sent)];
      } else {
        ClearAuth();
        requests := requests[i := requests[i].(phase := Answered)];
      }
    }
  }

  // --- every request is sent at most twice ------------------------------------------------

  // What the browser can see happen, with any answers at all from the server.
  datatype TabEvent =
    | Issued(auth: bool) | Replied(i: nat, unauthorized: bool) | RefreshAnswered(pair: Option<Pair>)
    | Settled | Resumed(i: nat) | LoggedIn(login: Pair) | LoggedOut

  function TabStep(t: Tab, e: TabEvent): Tab {
    match e
    case Issued(auth) => Issue(t, auth)
    case Replied(i, unauthorized) => Reply(t, i, unauthorized)
    case RefreshAnswered(pair) => RefreshAnswer(t, pair)
    case Settled => Settle(t)
    case Resumed(i) => Resume(t, i)
    case LoggedIn(login) => WithTokens(t, login)
    case LoggedOut => Cleared(t)
  }

  function TabRun(t: Tab, events: seq<TabEvent>): Tab {
    if events == [] then t else TabStep(TabRun(t, events[..|events| - 1]), events[|events| - 1])
  }

  predicate RequestOk(q: Request) {
    && (q.auth ==> !q.retried)
    && match q.phase
       case Sent => q.sends == if q.retried then 2 else 1
       case Waiting => q.retried && q.sends == 1
       case Woken(_) => q.retried && q.sends == 1
       case Answered => 1 <= q.sends <= if q.retried then 2 else 1
  }

  function Retried(qs: seq<Request>): nat {
    if qs == [] then 0 else Retried(qs[..|qs| - 1]) + if qs[|qs| - 1].retried then 1 else 0
  }

  lemma {:induction false} RetriedUpdate(qs: seq<Request>, i: nat, q: Request)
    requires i < |qs| && (qs[i].retried ==> q.retried)
    ensures Retried(qs[i := q]) == Retried(qs) + if q.retried && !qs[i].retried then 1 else 0
  {
    var n := |qs| - 1;
    if i == n {
      assert qs[i := q][..n] == qs[..n];
    } else {
      RetriedUpdate(qs[..n], i, q);
      assert qs[i := q][..n] == qs[..n][i := q];
    }
  }

  lemma {:induction false} RetriedSame(a: seq<Request>, b: seq<Request>)
    requires |a| == |b| && forall i | 0 <= i < |a| :: a[i].retried == b[i].retried
    ensures Retried(a) == Retried(b) <= |a|
  {
    if a != [] {
      RetriedSame(a[..|a| - 1], b[..|b| - 1]);
    }
  }

  ghost predicate TabOk(t: Tab) {
    (forall q | q in t.requests :: RequestOk(q)) && t.refreshes <= Retried(t.requests)
  }

  // Clearing the flight wakes requests and changes nothing else about them.
  lemma SettledOk(t: Tab)
    requires TabOk(t) && TabStep(t, Settled) != t
    ensures TabOk(TabStep(t, Settled))
  {
    var u := TabStep(t, Settled);
    RetriedSame(t.requests, u.requests);
    forall q | q in u.requests
      ensures RequestOk(q)
    {
      var k :| 0 <= k < |u.requests| && u.requests[k] == q;
      assert t.requests[k] in t.requests;
    }
  }

  lemma TabStepOk(t: Tab, e: TabEvent)
    requires TabOk(t)
    ensures TabOk(TabStep(t, e))
  {
    var u := TabStep(t, e);
    match e
    case Issued(auth) =>
      assert u.requests[..|t.requests|] == t.requests;
    case Replied(i, unauthorized) =>
      if i < |t.requests| && t.requests[i].phase == Sent {
        assert t.requests[i] in t.requests;
        RetriedUpdate(t.requests, i, u.requests[i]);
      }
    case Settled =>
      if u != t {
        SettledOk(t);
      }
    case Resumed(i) =>
      if i < |t.requests| && t.requests[i].phase.Woken? {
        assert t.requests[i] in t.requests;
        RetriedUpdate(t.requests, i, u.requests[i]);
      }
    case _ =>
  }

  lemma {:induction false} TabRunOk(events: seq<TabEvent>)
    ensures TabOk(TabRun(Fresh(), events))
  {
    if events != [] {
      TabRunOk(events[..|events| - 1]);
      TabStepOk(TabRun(Fresh(), events[..|events| - 1]), events[|events| - 1]);
    }
  }

  /** Whatever the server answers and in whatever order: no request is sent more than twice, an auth endpoint
      never more than once, and there are never more refreshes than requests. */
  lemma SentAtMostTwice(events: seq<TabEvent>)
    ensures var t := TabRun(Fresh(), events);
      && (forall q | q in t.requests :: 1 <= q.sends <= if q.auth then 1 else 2)
      && t.refreshes <= |t.requests|
  {
    TabRunOk(events);
    var t := TabRun(Fresh(), events);
    RetriedSame(t.requests, t.requests);
    forall q | q in t.requests
      ensures 1 <= q.sends <= if q.auth then 1 else 2
    {
      assert RequestOk(q);
    }
  }

  // What a request can still go through.
  function ToDo(q: Request): nat {
    match q.phase
    case Sent => if q.retried then 1 else 4
    case Waiting => 3
    case Woken(_) => 2
    case Answered => 0
  }

  function Work(qs: seq<Request>): nat {
    if qs == [] then 0 else Work(qs[..|qs| - 1]) + ToDo(qs[|qs| - 1])
  }

  lemma {:induction false} WorkUpdate(qs: seq<Request>, i: nat, q: Request)
    requires i < |qs|
    ensures Work(qs[i := q]) == Work(qs) - ToDo(qs[i]) + ToDo(q)
  {
    var n := |qs| - 1;
    if i == n {
      assert qs[i := q][..n] == qs[..n];
    } else {
      WorkUpdate(qs[..n], i, q);
      assert qs[i := q][..n] == qs[..n][i := q];
    }
  }

  lemma {:induction false} WorkWake(qs: seq<Request>, access: Option<nat>)
    ensures Work(Wake(qs, access)) <= Work(qs)
    ensures (exists q :: q in qs && q.phase == Waiting) ==> Work(Wake(qs, access)) < Work(qs)
  {
    if qs != [] {
      var n := |qs| - 1;
      WorkWake(qs[..n], access);
      assert Wake(qs, access)[..n] == Wake(qs[..n], access);
    }
  }

  /** Only a new request adds work; every answer and every waking takes some away, so the retries of a
      finite number of requests end. */
  lemma RetriesEnd(t: Tab, e: TabEvent)
    requires TabOk(t)
    ensures !e.Issued? ==> Work(TabStep(t, e).requests) <= Work(t.requests)
    ensures e.Replied? && e.i < |t.requests| && t.requests[e.i].phase == Sent
      ==> Work(TabStep(t, e).requests) < Work(t.requests)
    ensures e.Resumed? && e.i < |t.requests| && t.requests[e.i].phase.Woken?
      ==> Work(TabStep(t, e).requests) < Work(t.requests)
  {
    var u := TabStep(t, e);
    match e
    case Replied(i, _) =>
      if i < |t.requests| && t.requests[i].phase == Sent {
        assert t.requests[i] in t.requests && u.requests == t.requests[i := u.requests[i]];
        WorkUpdate(t.requests, i, u.requests[i]);
      }
    case Resumed(i) =>
      if i < |t.requests| && t.requests[i].phase.Woken? {
        assert t.requests[i] in t.requests && u.requests == t.requests[i := u.requests[i]];
        WorkUpdate(t.requests, i, u.requests[i]);
      }
    case Settled =>
      if u != t {
        WorkWake(t.requests, t.flight.value.outcome.value);
      }
    case _ =>
  }
}
