/** What whole runs of the relay come to, in terms of the events that happened: how each request is
    answered, which sockets are open, and what the caches hold and evict. */
module RelayRuns {
  import opened Text
  import opened RelayState

  // ----- Runs, one event more -----

  lemma {:induction false} Snoc(s: State, events: seq<Event>)
    requires |events| > 0
    ensures var init, last := events[..|events| - 1], events[|events| - 1];
            && (IsRun(s, events) <==> IsRun(s, init) && Enabled(Final(s, init), last))
            && Final(s, events) == After(Final(s, init), last)
    decreases |events|
  {
    hide After, Enabled;
    var init, last := events[..|events| - 1], events[|events| - 1];
    if |events| == 1 {
      assert init == [] && events[1..] == [];
    } else {
      Snoc(After(s, events[0]), events[1..]);
      assert events[1..][..|events| - 2] == init[1..] && events[1..][|events| - 2] == last;
    }
  }

  lemma StartKeeps(events: seq<Event>)
    requires IsRun(START, events)
    ensures Inv(Final(START, events))
  {
    assert Inv(START);
    hide Inv;
    RunKeeps(START, events);
  }

  /** The state before event `i`. */
  function Before(events: seq<Event>, i: nat): State
    requires i <= |events|
  {
    Final(START, events[..i])
  }

  // ----- How requests are answered -----

  predicate Reachable(s: State, t: Token) {
    exists k :: k in s.open && (t, k) in s.connections
  }

  /** The answer that event `e` gives to the unsettled request `r`, if any: agent data when its callbacks are
      live; 523 when its token has no open socket; 500 without a token, for an expired or evicted request,
      and when its timer fires. */
  function Outcome(s: State, e: Event, r: ResId): Option<Response> {
    match e
    case Execute(q, token, _, _) =>
      if q == r then
        if token.None? then Some(Error(500)) else if Reachable(s, token.value) then None else Some(Error(523))
      else if |s.pending| == MAX_RESPONSES && s.pending[0].resId == r then Some(Error(500))
      else None
    case Answer(q, result) =>
      if q != r then None
      else if Pending(r, false) in s.pending then Some(Data(result))
      else if Pending(r, true) in s.pending then Some(Error(500))
      else None
    case Timer(q) => if q == r && Pending(r, false) in s.pending then Some(Error(500)) else None
    case _ => None
  }

  lemma {:induction false} FoundIsIn(ps: seq<Pending>, p: Pending)
    requires DistinctPending(ps)
    ensures FindPending(ps, p.resId) == Some(p) <==> p in ps
  {
    if |ps| > 0 {
      FoundIsIn(ps[1..], p);
      assert ps == [ps[0]] + ps[1..];
      if p in ps[1..] {
        var j :| 0 <= j < |ps[1..]| && ps[1..][j] == p;
        assert ps[j + 1] == p;
      }
    }
  }

  lemma ReachableIsHeld(s: State, t: Token)
    requires DistinctTokens(s.connections)
    ensures Reachable(s, t) <==> SocketOf(s.connections, t).Some? && SocketOf(s.connections, t).value in s.open
  {
    if Reachable(s, t) {
      var k :| k in s.open && (t, k) in s.connections;
      SocketOfDistinct(s.connections, t, k);
    }
  }

  predicate Gives(s: State, o: Option<Response>, r: ResId) {
    match o
    case None => r !in s.settled
    case Some(x) => r in s.settled && s.settled[r] == x
  }

  lemma ExecuteOutcome(s: State, q: ResId, token: Option<Token>, command: Command, sendFails: bool, r: ResId)
    requires Inv(s) && q !in s.commands && r !in s.settled
    ensures Gives(AfterExecute(s, q, token, command, sendFails), Outcome(s, Execute(q, token, command, sendFails), r), r)
  {
    if token.Some? {
      ReachableIsHeld(s, token.value);
    }
    if |s.pending| >= MAX_RESPONSES {
      assert s.pending[0] in s.pending;
    }
    var s1 := MakeRoom(s.(commands := s.commands[q := command]));
    assert s1.connections == s.connections && s1.open == s.open;
    assert q != r ==> (r in s1.settled <==> |s.pending| == MAX_RESPONSES && s.pending[0].resId == r);
    assert r in s1.settled ==> s1.settled[r] == Error(500);
    assert q !in s1.settled;
    hide MakeRoom, Inv, Reachable, DropConnection, TouchConnection;
  }

  lemma AnswerOutcome(s: State, q: ResId, result: string, r: ResId)
    requires Inv(s) && r !in s.settled
    ensures Gives(AfterAnswer(s, q, result), Outcome(s, Answer(q, result), r), r)
  {
    FoundIsIn(s.pending, Pending(q, false));
    FoundIsIn(s.pending, Pending(q, true));
    hide Inv, DropPending;
    var p := FindPending(s.pending, q);
    assert p.Some? ==> p == Some(Pending(q, p.value.expired));
  }

  lemma TimerOutcome(s: State, q: ResId, r: ResId)
    requires Inv(s) && r !in s.settled
    ensures Gives(AfterTimer(s, q), Outcome(s, Timer(q), r), r)
  {
    FoundIsIn(s.pending, Pending(q, false));
    hide Inv, DropPending;
    var p := FindPending(s.pending, q);
    assert p.Some? ==> p == Some(Pending(q, p.value.expired));
  }

  lemma EventOutcome(s: State, e: Event, r: ResId)
    requires Inv(s) && Enabled(s, e) && r !in s.settled
    ensures Gives(After(s, e), Outcome(s, e, r), r)
  {
    match e
    case Execute(q, token, command, sendFails) => ExecuteOutcome(s, q, token, command, sendFails, r);
    case Answer(q, result) => AnswerOutcome(s, q, result, r);
    case Timer(q) => TimerOutcome(s, q, r);
    case Register(_, _) =>
      hide TouchConnection, DropConnection, AddConnection;
    case _ =>
      hide Expired;
  }

  /** Event `i` of the run is the one that answers `r`. */
  predicate SettlesAt(events: seq<Event>, i: nat, r: ResId, x: Response)
    requires i < |events|
  {
    r !in Before(events, i).settled && Outcome(Before(events, i), events[i], r) == Some(x)
  }

  lemma SettlesEarlier(events: seq<Event>, i: nat, r: ResId, x: Response)
    requires i + 1 < |events|
    ensures SettlesAt(events, i, r, x) <==> SettlesAt(events[..|events| - 1], i, r, x)
  {
    hide Outcome;
    assert events[..|events| - 1][..i] == events[..i];
  }

  /** Over every run: a request is answered `x` exactly when some event found it unsettled and gave `x`. */
  lemma {:induction false} AnsweredExactly(events: seq<Event>, r: ResId, x: Response)
    requires IsRun(START, events)
    ensures var s := Final(START, events);
            (r in s.settled && s.settled[r] == x) <==> exists i :: 0 <= i < |events| && SettlesAt(events, i, r, x)
  {
    hide Inv, After, Enabled, SettlesAt;
    if |events| > 0 {
      var init, last := events[..|events| - 1], events[|events| - 1];
      var s := Final(START, init);
      Snoc(START, events);
      StartKeeps(init);
      AnsweredExactly(init, r, x);
      forall i | 0 <= i < |init|
        ensures SettlesAt(events, i, r, x) <==> SettlesAt(init, i, r, x)
      {
        SettlesEarlier(events, i, r, x);
      }
      LastSettles(events, r, x);
      if r in s.settled {
        EventSettlesOnce(s, last, r);
      } else {
        EventOutcome(s, last, r);
        if exists i :: 0 <= i < |events| && SettlesAt(events, i, r, x) {
          var i :| 0 <= i < |events| && SettlesAt(events, i, r, x);
          assert i == |events| - 1;
        }
      }
    }
  }

  lemma LastSettles(events: seq<Event>, r: ResId, x: Response)
    requires |events| > 0
    ensures var i := |events| - 1; var s := Final(START, events[..i]);
            SettlesAt(events, i, r, x) <==> r !in s.settled && Outcome(s, events[i], r) == Some(x)
  {
    hide Outcome, Final;
  }

  /** Request `r` is cached and has not expired when event `i` happens. */
  predicate LiveAt(events: seq<Event>, i: nat, r: ResId)
    requires i <= |events|
  {
    Pending(r, false) in Before(events, i).pending
  }

  lemma LiveIsUnsettled(s: State, r: ResId)
    requires Inv(s) && Pending(r, false) in s.pending
    ensures r !in s.settled
  {}

  lemma {:induction false} IsRunPrefix(events: seq<Event>, i: nat)
    requires IsRun(START, events) && i <= |events|
    ensures IsRun(START, events[..i])
    decreases |events| - i
  {
    if i < |events| {
      IsRunPrefix(events, i + 1);
      Snoc(START, events[..i + 1]);
      assert events[..i + 1][..i] == events[..i];
    } else {
      assert events[..i] == events;
    }
  }

  lemma DataSettles(events: seq<Event>, i: nat, r: ResId, result: string)
    requires IsRun(START, events) && i < |events|
    ensures SettlesAt(events, i, r, Data(result)) <==> events[i] == Answer(r, result) && LiveAt(events, i, r)
  {
    IsRunPrefix(events, i);
    StartKeeps(events[..i]);
    hide Inv, Final, Reachable, IsRun;
    if LiveAt(events, i, r) {
      LiveIsUnsettled(Before(events, i), r);
    }
  }

  /** Over every run: a request gets 200 with `result` exactly when an agent answered it with `result` while it
      was cached and had not expired. */
  lemma DataExactly(events: seq<Event>, r: ResId, result: string)
    requires IsRun(START, events)
    ensures var s := Final(START, events);
            (r in s.settled && s.settled[r] == Data(result)) <==>
            exists i :: 0 <= i < |events| && events[i] == Answer(r, result) && LiveAt(events, i, r)
  {
    hide *;
    AnsweredExactly(events, r, Data(result));
    forall i | 0 <= i < |events|
      ensures SettlesAt(events, i, r, Data(result)) <==> events[i] == Answer(r, result) && LiveAt(events, i, r)
    {
      DataSettles(events, i, r, result);
    }
  }

  // ----- When a request is live -----

  /** The event that issued request `r`, or -1. */
  function IssuedAt(events: seq<Event>, r: ResId): int {
    if |events| == 0 then -1
    else
      var last := events[|events| - 1];
      if last.Execute? && last.resId == r then |events| - 1 else IssuedAt(events[..|events| - 1], r)
  }

  /** Over every run: the requests are those that were issued, each with the command it was issued with. */
  lemma {:induction false} IssuedExactly(events: seq<Event>, r: ResId)
    requires IsRun(START, events)
    ensures var s, i := Final(START, events), IssuedAt(events, r);
            && i < |events| && (r in s.commands <==> i >= 0)
            && (i >= 0 ==> events[i].Execute? && events[i].resId == r && s.commands[r] == events[i].command)
  {
    if |events| > 0 {
      var init, last := events[..|events| - 1], events[|events| - 1];
      Snoc(START, events);
      IssuedExactly(init, r);
      hide After, Enabled, Final, IsRun;
      CommandsAfter(Final(START, init), last);
    }
  }

  lemma CommandsAfter(s: State, e: Event)
    ensures After(s, e).commands == if e.Execute? then s.commands[e.resId := e.command] else s.commands
  {
    hide DropPending, DropConnection, TouchConnection, AddConnection, Expired, FindPending, SocketOf;
  }

  /** Request `r` expired after it was issued. */
  predicate ExpiredSince(events: seq<Event>, r: ResId) {
    if |events| == 0 then false
    else
      var last := events[|events| - 1];
      last == Expire(r) || (!(last.Execute? && last.resId == r) && ExpiredSince(events[..|events| - 1], r))
  }

  /** Expiring marks the request, if it is cached, and no other. */
  lemma ExpireExact(s: State, r: ResId, p: Pending)
    ensures p in After(s, Expire(r)).pending <==>
            (p in s.pending && p.resId != r) || (p == Pending(r, true) && r in PendingIds(s.pending))
  {
    var qs := Expired(s.pending, r);
    if p in qs {
      var i :| 0 <= i < |qs| && qs[i] == p;
      assert s.pending[i] in s.pending;
    }
    if p in s.pending && p.resId != r {
      var i :| 0 <= i < |s.pending| && s.pending[i] == p;
      assert qs[i] == p;
    }
    if p == Pending(r, true) && r in PendingIds(s.pending) {
      var q :| q in s.pending && q.resId == r;
      var i :| 0 <= i < |s.pending| && s.pending[i] == q;
      assert qs[i] == p;
    }
  }

  /** No other event but issuing it makes a request cached, or changes whether it has expired. */
  lemma PendingComesFrom(s: State, e: Event, p: Pending)
    requires Inv(s) && Enabled(s, e) && p in After(s, e).pending && e != Expire(p.resId)
    ensures p in s.pending || (e.Execute? && p == Pending(e.resId, false))
  {
    match e
    case Execute(q, token, command, _) =>
      hide DropConnection, TouchConnection, SocketOf, Inv;
    case Answer(q, _) =>
      DropPendingIn(s.pending, q);
      hide Inv;
    case Timer(q) =>
      DropPendingIn(s.pending, q);
      hide Inv;
    case Expire(q) =>
      ExpireExact(s, q, p);
      hide Inv, Expired;
    case Register(_, _) =>
      hide Inv, TouchConnection, AddConnection, DropConnection;
    case _ =>
  }

  lemma FreshIsNotPending(s: State, p: Pending)
    requires Inv(s) && p.resId !in s.commands
    ensures p !in s.pending
  {}

  lemma {:induction false} ExpiredExactly(events: seq<Event>, p: Pending)
    requires IsRun(START, events) && p in Final(START, events).pending
    ensures p.expired <==> ExpiredSince(events, p.resId)
  {
    hide Inv, After;
    if |events| > 0 {
      var init, last := events[..|events| - 1], events[|events| - 1];
      var s := Final(START, init);
      Snoc(START, events);
      StartKeeps(init);
      if last == Expire(p.resId) {
        ExpireExact(s, p.resId, p);
      } else {
        PendingComesFrom(s, last, p);
        if p in s.pending {
          ExpiredExactly(init, p);
          if last.Execute? && last.resId == p.resId {
            FreshIsNotPending(s, p);
          }
        }
      }
    }
  }

  /** Over every run: a request is live exactly when it was made, has no answer yet, and has not expired since. */
  lemma LiveExactly(events: seq<Event>, r: ResId)
    requires IsRun(START, events)
    ensures var s := Final(START, events);
            Pending(r, false) in s.pending <==> r in s.commands && r !in s.settled && !ExpiredSince(events, r)
  {
    var s := Final(START, events);
    StartKeeps(events);
    assert r in PendingIds(s.pending) <==> r in s.commands && r !in s.settled;
    hide Inv, Final, ExpiredSince;
    if r in PendingIds(s.pending) {
      var p :| p in s.pending && p.resId == r;
      ExpiredExactly(events, p);
      assert p == Pending(r, p.expired);
    }
    if Pending(r, false) in s.pending {
      ExpiredExactly(events, Pending(r, false));
    }
  }

  predicate LiveTimed(s: State) {
    forall i :: 0 <= i < |s.pending| && !s.pending[i].expired ==> s.pending[i].resId in s.timers
  }

  lemma EventKeepsTimed(s: State, e: Event)
    requires Inv(s) && Enabled(s, e) && LiveTimed(s)
    ensures LiveTimed(After(s, e))
  {
    var s' := After(s, e);
    forall i | 0 <= i < |s'.pending| && !s'.pending[i].expired
      ensures s'.pending[i].resId in s'.timers
    {
      var p := s'.pending[i];
      TimerStays(s, e, p);
    }
  }

  lemma TimerStays(s: State, e: Event, p: Pending)
    requires Inv(s) && Enabled(s, e) && LiveTimed(s) && p in After(s, e).pending && !p.expired
    ensures p.resId in After(s, e).timers
  {
    hide DropPending, PendingIds;
    match e
    case Execute(q, token, command, _) =>
      ExecuteTimer(s, q, token, command, e.sendFails, p);
    case Answer(q, result) =>
      CloseTimer(s, q, After(s, e), p);
    case Timer(q) =>
      FoundIsIn(s.pending, p);
      CloseTimer(s, q, After(s, e), p);
    case Expire(q) =>
      ExpireExact(s, q, p);
      hide Inv, Expired;
    case Register(_, _) =>
      hide Inv, TouchConnection, AddConnection, DropConnection;
    case _ =>
      hide Inv;
  }

  /** Answers and timers leave the other requests' timers alone. */
  lemma CloseTimer(s: State, q: ResId, s': State, p: Pending)
    requires Inv(s) && LiveTimed(s) && p in s'.pending && !p.expired
    requires s'.pending == s.pending || s'.pending == DropPending(s.pending, q)
    requires s'.timers == s.timers || (s'.timers == s.timers - {q} && p.resId != q)
             || (s'.timers == s.timers - {q} && s'.pending == DropPending(s.pending, q))
    ensures p.resId in s'.timers
  {
    DropPendingIn(s.pending, q);
    hide DropPending, Inv;
    var j :| 0 <= j < |s.pending| && s.pending[j] == p;
  }

  lemma RoomKeepsTimer(s: State, q: ResId, command: Command, p: Pending)
    requires Inv(s) && q !in s.commands && LiveTimed(s) && !p.expired
    ensures var s1 := MakeRoom(s.(commands := s.commands[q := command]));
            p in s1.pending ==> p.resId != q && p.resId in s1.timers
  {
    FreshIsNotPending(s, Pending(q, p.expired));
    var s1 := MakeRoom(s.(commands := s.commands[q := command]));
    if p in s1.pending {
      var j :| 0 <= j < |s1.pending| && s1.pending[j] == p;
      var i := if |s.pending| >= MAX_RESPONSES then j + 1 else j;
      assert s.pending[i] == p;
      assert i > 0 && |s.pending| >= MAX_RESPONSES ==> s.pending[0].resId != p.resId;
    }
  }

  lemma ExecuteTimer(s: State, q: ResId, token: Option<Token>, command: Command, sendFails: bool, p: Pending)
    requires Inv(s) && q !in s.commands && LiveTimed(s)
    requires p in AfterExecute(s, q, token, command, sendFails).pending && !p.expired
    ensures p.resId in AfterExecute(s, q, token, command, sendFails).timers
  {
    var s1 := MakeRoom(s.(commands := s.commands[q := command]));
    RoomKeepsTimer(s, q, command, p);
    hide MakeRoom, Inv, DropConnection, TouchConnection, SocketOf;
  }

  /** Over every run: every live request has its timer set. */
  lemma {:induction false} LiveHasTimer(events: seq<Event>)
    requires IsRun(START, events)
    ensures LiveTimed(Final(START, events))
  {
    if |events| > 0 {
      var init := events[..|events| - 1];
      Snoc(START, events);
      StartKeeps(init);
      LiveHasTimer(init);
      hide Inv, After, Enabled, LiveTimed;
      EventKeepsTimed(Final(START, init), events[|events| - 1]);
    }
  }

  // ----- Sockets -----

  /** The last thing that happened to socket `k` is that it opened. */
  predicate IsOpen(events: seq<Event>, k: Socket) {
    if |events| == 0 then false
    else
      var last := events[|events| - 1];
      if last == Opened(k) then true
      else if last == Closed(k) || last == Reject(k) then false
      else IsOpen(events[..|events| - 1], k)
  }

  lemma EventOpens(s: State, e: Event, k: Socket)
    ensures k in After(s, e).open <==> e == Opened(k) || (k in s.open && e != Closed(k) && e != Reject(k))
  {
    hide DropPending, DropConnection, TouchConnection, AddConnection, Expired;
  }

  lemma {:induction false} OpenExactly(events: seq<Event>, k: Socket)
    ensures k in Final(START, events).open <==> IsOpen(events, k)
  {
    if |events| > 0 {
      var init := events[..|events| - 1];
      Snoc(START, events);
      OpenExactly(init, k);
      hide After;
      EventOpens(Final(START, init), events[|events| - 1], k);
    }
  }

  lemma SocketOfAppend(cs: seq<(Token, Socket)>, t: Token, k: Socket)
    requires SocketOf(cs, t).None?
    ensures SocketOf(cs + [(t, k)], t) == Some(k)
  {
    if |cs| > 0 {
      assert cs[0] in cs && (t, cs[0].1) !in cs;
      SocketOfTail(cs, t);
      SocketOfAppend(cs[1..], t, k);
      assert (cs + [(t, k)])[1..] == cs[1..] + [(t, k)];
    }
  }

  lemma SocketOfTail(cs: seq<(Token, Socket)>, t: Token)
    requires |cs| > 0 && SocketOf(cs, t).None?
    ensures SocketOf(cs[1..], t).None?
  {}

  /** After a registration the token is held by its open socket, if it had one, and by the new one otherwise. */
  lemma RegisterTakes(s: State, t: Token, k: Socket)
    ensures var held := SocketOf(s.connections, t);
            SocketOf(AfterRegister(s, t, k).connections, t) == if held.Some? && held.value in s.open then held else Some(k)
  {
    var cs := s.connections;
    DroppedToken(cs, t);
    hide DropConnection;
    match SocketOf(cs, t)
    case None =>
      if |cs| >= MAX_CONNECTIONS {
        SocketOfTail(cs, t);
        SocketOfAppend(cs[1..], t, k);
      } else {
        SocketOfAppend(cs, t, k);
      }
    case Some(held) =>
      var ds := DropConnection(cs, t);
      SocketOfAppend(ds, t, held);
      if |ds| >= MAX_CONNECTIONS {
        SocketOfTail(ds, t);
        SocketOfAppend(ds[1..], t, k);
      } else {
        SocketOfAppend(ds, t, k);
      }
  }

  /** What a command does to the registry: its token keeps its open socket, and forgets any other; no other
      token is touched. Its timer is set exactly when it waits for an answer. */
  lemma CommandAndRegistry(s: State, r: ResId, t: Token, command: Command, sendFails: bool)
    requires Inv(s) && r !in s.commands
    ensures var s' := AfterExecute(s, r, Some(t), command, sendFails);
            && SocketOf(s'.connections, t) == (if Reachable(s, t) then SocketOf(s.connections, t) else None)
            && (forall c: (Token, Socket) :: c.0 != t ==> (c in s'.connections <==> c in s.connections))
            && (r in s'.timers <==> Reachable(s, t))
  {
    var cs := s.connections;
    ReachableIsHeld(s, t);
    DroppedToken(cs, t);
    DropConnectionIn(cs, t);
    if SocketOf(cs, t).Some? {
      SocketOfAppend(DropConnection(cs, t), t, SocketOf(cs, t).value);
    }
    FreshHasNoTimer(s, r);
    var s1 := MakeRoom(s.(commands := s.commands[r := command]));
    assert s1.connections == cs && s1.open == s.open && r !in s1.timers;
    hide MakeRoom, Inv, Reachable, DropConnection, SocketOf;
  }

  lemma FreshHasNoTimer(s: State, r: ResId)
    requires Inv(s) && r !in s.commands
    ensures r !in s.timers
  {}

  // ----- What is evicted -----

  /** The last event that looked token `t` up, or -1. */
  function LastLookup(events: seq<Event>, t: Token): (i: int)
    ensures -1 <= i < |events|
  {
    if |events| == 0 then -1
    else if LookedUp(events[|events| - 1]) == Some(t) then |events| - 1
    else LastLookup(events[..|events| - 1], t)
  }

  /** The token that an event looks up, if any. */
  function LookedUp(e: Event): Option<Token> {
    match e
    case Execute(_, token, _, _) => token
    case Register(t, _) => Some(t)
    case _ => None
  }

  ghost predicate Sorted<T>(xs: seq<T>, at: T -> int) {
    forall i, j :: 0 <= i < j < |xs| ==> at(xs[i]) < at(xs[j])
  }

  ghost predicate ByRecency(events: seq<Event>, cs: seq<(Token, Socket)>) {
    Sorted(cs, (c: (Token, Socket)) => LastLookup(events, c.0))
  }

  lemma {:induction false} DropSorted(cs: seq<(Token, Socket)>, t: Token, at: ((Token, Socket)) -> int)
    requires Sorted(cs, at)
    ensures Sorted(DropConnection(cs, t), at)
  {
    if |cs| > 0 {
      DropSorted(cs[1..], t, at);
      DropConnectionIn(cs[1..], t);
      var ds := DropConnection(cs[1..], t);
      forall j | 0 <= j < |ds|
        ensures at(cs[0]) < at(ds[j])
      {
        assert ds[j] in cs[1..];
      }
    }
  }

  lemma SortedSnoc<T>(xs: seq<T>, x: T, at: T -> int)
    requires Sorted(xs, at) && forall i :: 0 <= i < |xs| ==> at(xs[i]) < at(x)
    ensures Sorted(xs + [x], at)
  {}

  lemma SortedCongruent<T>(xs: seq<T>, at: T -> int, bt: T -> int)
    requires Sorted(xs, at) && forall i :: 0 <= i < |xs| ==> at(xs[i]) == bt(xs[i])
    ensures Sorted(xs, bt)
  {}

  lemma SortedTail<T>(xs: seq<T>, at: T -> int)
    requires Sorted(xs, at) && |xs| > 0
    ensures Sorted(xs[1..], at)
  {}

  lemma {:induction false} DropAbsent(cs: seq<(Token, Socket)>, t: Token)
    requires SocketOf(cs, t).None?
    ensures DropConnection(cs, t) == cs
  {
    if |cs| > 0 {
      DropAbsent(cs[1..], t);
    }
  }

  /** `cs` is what a lookup of `t` can make of `base`, the connections of the other tokens. */
  predicate LookupResult(base: seq<(Token, Socket)>, t: Token, cs: seq<(Token, Socket)>) {
    || cs == base
    || (|cs| > 0 && cs[|cs| - 1].0 == t && cs[..|cs| - 1] == base)
    || (|base| > 0 && |cs| > 0 && cs[|cs| - 1].0 == t && cs[..|cs| - 1] == base[1..])
  }

  lemma ResultOf(base: seq<(Token, Socket)>, t: Token, k: Socket)
    ensures LookupResult(base, t, base + [(t, k)])
    ensures LookupResult(base, t, AddConnection(base, t, k))
  {}

  lemma LookupKeeps(s: State, e: Event, t: Token)
    requires LookedUp(e) == Some(t)
    ensures LookupResult(DropConnection(s.connections, t), t, After(s, e).connections)
  {
    var cs := s.connections;
    if SocketOf(cs, t).None? {
      DropAbsent(cs, t);
    } else {
      ResultOf(DropConnection(cs, t), t, SocketOf(cs, t).value);
    }
    if e.Register? {
      ResultOf(DropConnection(cs, t), t, e.socket);
      hide LookupResult, DropConnection, AddConnection;
    } else {
      var s1 := MakeRoom(s.(commands := s.commands[e.resId := e.command]));
      assert s1.connections == cs && s1.open == s.open;
      hide LookupResult, DropConnection, MakeRoom;
    }
  }

  lemma OthersKeep(s: State, e: Event)
    requires LookedUp(e).None?
    ensures After(s, e).connections == s.connections
  {
    hide DropPending, Expired, FindPending;
  }

  lemma LookupSorted(init: seq<Event>, e: Event, t: Token, cs: seq<(Token, Socket)>, cs': seq<(Token, Socket)>)
    requires LookedUp(e) == Some(t) && ByRecency(init, cs) && LookupResult(DropConnection(cs, t), t, cs')
    ensures ByRecency(init + [e], cs')
  {
    var events := init + [e];
    var at, bt := (c: (Token, Socket)) => LastLookup(init, c.0), (c: (Token, Socket)) => LastLookup(events, c.0);
    var base := DropConnection(cs, t);
    DropSorted(cs, t, at);
    DropConnectionIn(cs, t);
    assert events[..|init|] == init && LastLookup(events, t) == |init|;
    forall i | 0 <= i < |base|
      ensures at(base[i]) == bt(base[i]) < |init|
    {
      assert base[i] in base;
    }
    hide LastLookup, LookedUp, DropConnection;
    SortedCongruent(base, at, bt);
    ResultSorted(base, t, cs', bt, |init|);
  }

  lemma ResultSorted(base: seq<(Token, Socket)>, t: Token, cs: seq<(Token, Socket)>, at: ((Token, Socket)) -> int, now: int)
    requires Sorted(base, at) && LookupResult(base, t, cs)
    requires forall i :: 0 <= i < |base| ==> at(base[i]) < now
    requires forall c: (Token, Socket) :: c.0 == t ==> at(c) == now
    ensures Sorted(cs, at)
  {
    if |base| > 0 {
      SortedTail(base, at);
    }
    if cs != base {
      var rest, last := cs[..|cs| - 1], cs[|cs| - 1];
      assert cs == rest + [last];
      SortedSnoc(rest, last, at);
    }
  }

  /** Over every run: cached connections stand in the order in which their tokens were last looked up. */
  lemma {:induction false} ConnectionsByRecency(events: seq<Event>)
    requires IsRun(START, events)
    ensures ByRecency(events, Final(START, events).connections)
  {
    if |events| > 0 {
      hide *;
      var init, last := events[..|events| - 1], events[|events| - 1];
      var s := Final(START, init);
      Snoc(START, events);
      ConnectionsByRecency(init);
      assert events == init + [last];
      if LookedUp(last).Some? {
        var t := LookedUp(last).value;
        LookupKeeps(s, last, t);
        LookupSorted(init, last, t, s.connections, After(s, last).connections);
      } else {
        OthersKeep(s, last);
        NotLookedUp(init, last, s.connections);
      }
    }
  }

  lemma NotLookedUp(init: seq<Event>, e: Event, cs: seq<(Token, Socket)>)
    requires ByRecency(init, cs) && LookedUp(e).None?
    ensures ByRecency(init + [e], cs)
  {
    var events := init + [e];
    assert events[..|init|] == init;
    SortedCongruent(cs, (c: (Token, Socket)) => LastLookup(init, c.0), (c: (Token, Socket)) => LastLookup(events, c.0));
  }

  /** A new token that finds the cache full pushes out the token that was looked up longest ago. */
  lemma EvictedTokenIsOldest(events: seq<Event>, t: Token, k: Socket)
    requires IsRun(START, events)
    requires var cs := Final(START, events).connections; |cs| == MAX_CONNECTIONS && SocketOf(cs, t).None?
    ensures var s := Final(START, events); var cs := s.connections;
            && After(s, Register(t, k)).connections == cs[1..] + [(t, k)]
            && forall i :: 0 < i < |cs| ==> LastLookup(events, cs[0].0) < LastLookup(events, cs[i].0)
  {
    ConnectionsByRecency(events);
    hide Final, LastLookup, SocketOf;
  }

  ghost predicate ByAge(events: seq<Event>, ps: seq<Pending>) {
    Sorted(ps, (p: Pending) => IssuedAt(events, p.resId))
  }

  lemma {:induction false} DropPendingSorted(ps: seq<Pending>, r: ResId, at: Pending -> int)
    requires Sorted(ps, at)
    ensures Sorted(DropPending(ps, r), at)
  {
    if |ps| > 0 {
      DropPendingSorted(ps[1..], r, at);
      DropPendingIn(ps[1..], r);
      var qs := DropPending(ps[1..], r);
      forall j | 0 <= j < |qs|
        ensures at(ps[0]) < at(qs[j])
      {
        assert qs[j] in ps[1..];
      }
    }
  }

  lemma {:induction false} IssuedBefore(events: seq<Event>, r: ResId)
    ensures IssuedAt(events, r) < |events|
  {
    if |events| > 0 {
      IssuedBefore(events[..|events| - 1], r);
    }
  }

  lemma ExpiredSorted(ps: seq<Pending>, r: ResId, events: seq<Event>)
    requires ByAge(events, ps)
    ensures ByAge(events, Expired(ps, r))
  {
    hide IssuedAt;
  }

  /** The pending requests after a command: the oldest may be evicted, and the new one may join at the end. */
  lemma ExecutePending(s: State, e: Event)
    requires e.Execute? && |s.pending| <= MAX_RESPONSES
    ensures var rest, ps := if |s.pending| == MAX_RESPONSES then s.pending[1..] else s.pending, After(s, e).pending;
            ps == rest || ps == rest + [Pending(e.resId, false)]
  {
    hide DropConnection, TouchConnection, SocketOf;
  }

  lemma IssueSorted(init: seq<Event>, e: Event, ps: seq<Pending>, rest: seq<Pending>)
    requires e.Execute? && ByAge(init, ps) && forall i :: 0 <= i < |ps| ==> ps[i].resId != e.resId
    requires rest == ps || (|ps| > 0 && rest == ps[1..])
    ensures ByAge(init + [e], rest) && ByAge(init + [e], rest + [Pending(e.resId, false)])
  {
    var events := init + [e];
    var at, bt := (p: Pending) => IssuedAt(init, p.resId), (p: Pending) => IssuedAt(events, p.resId);
    assert events[..|init|] == init && IssuedAt(events, e.resId) == |init|;
    if |ps| > 0 {
      SortedTail(ps, at);
    }
    forall i | 0 <= i < |rest|
      ensures at(rest[i]) == bt(rest[i]) < |init|
    {
      IssuedBefore(init, rest[i].resId);
    }
    hide IssuedAt;
    SortedCongruent(rest, at, bt);
    SortedSnoc(rest, Pending(e.resId, false), bt);
  }

  lemma KeepSorted(init: seq<Event>, e: Event, ps: seq<Pending>)
    requires ByAge(init, ps) && !e.Execute?
    ensures ByAge(init + [e], ps)
  {
    var events := init + [e];
    assert events[..|init|] == init;
    SortedCongruent(ps, (p: Pending) => IssuedAt(init, p.resId), (p: Pending) => IssuedAt(events, p.resId));
  }

  lemma EventPending(s: State, e: Event, init: seq<Event>)
    requires Inv(s) && Enabled(s, e) && ByAge(init, s.pending)
    ensures ByAge(init + [e], After(s, e).pending)
  {
    if e.Execute? {
      forall i | 0 <= i < |s.pending|
        ensures s.pending[i].resId != e.resId
      {
        FreshIsNotPending(s, Pending(e.resId, s.pending[i].expired));
        assert s.pending[i] in s.pending && s.pending[i] == Pending(s.pending[i].resId, s.pending[i].expired);
      }
      ExecutePending(s, e);
      hide After, ByAge, Inv, Enabled;
      IssueSorted(init, e, s.pending, if |s.pending| == MAX_RESPONSES then s.pending[1..] else s.pending);
    } else {
      var at := (p: Pending) => IssuedAt(init, p.resId);
      if e.Answer? || e.Timer? {
        DropPendingSorted(s.pending, e.resId, at);
      }
      if e.Expire? {
        ExpiredSorted(s.pending, e.resId, init);
      }
      hide IssuedAt, Inv, DropPending, Expired, DropConnection, AddConnection, TouchConnection, Sorted, FindPending;
      assert ByAge(init, After(s, e).pending);
      KeepSorted(init, e, After(s, e).pending);
    }
  }

  lemma NothingPending()
    ensures ByAge([], Final(START, []).pending)
  {}

  /** Over every run: pending requests stand in the order in which they were made. */
  lemma {:induction false} PendingByAge(events: seq<Event>)
    requires IsRun(START, events)
    ensures ByAge(events, Final(START, events).pending)
  {
    hide *;
    if |events| == 0 {
      NothingPending();
    } else {
      var init, last := events[..|events| - 1], events[|events| - 1];
      Snoc(START, events);
      StartKeeps(init);
      PendingByAge(init);
      assert events == init + [last];
      EventPending(Final(START, init), last, init);
    }
  }

  /** A command that finds the response cache full has the oldest pending request rejected with 500. */
  lemma EvictedRequestIsOldest(events: seq<Event>, e: Event)
    requires IsRun(START, events) && e.Execute? && Enabled(Final(START, events), e)
    requires |Final(START, events).pending| == MAX_RESPONSES
    ensures var s := Final(START, events); var ps, s' := s.pending, After(s, e);
            && ps[0].resId in s'.settled && s'.settled[ps[0].resId] == Error(500)
            && (forall i :: 0 < i < |ps| ==> IssuedAt(events, ps[0].resId) < IssuedAt(events, ps[i].resId))
            && (forall i :: 0 < i < |ps| ==> ps[i] in s'.pending)
  {
    var s := Final(START, events);
    StartKeeps(events);
    PendingByAge(events);
    assert s.pending[0] in s.pending;
    EventOutcome(s, e, s.pending[0].resId);
    FreshIsNotPending(s, Pending(e.resId, s.pending[0].expired));
    ExecutePending(s, e);
    hide Final, After, IssuedAt, Inv, Enabled;
  }
}
