/** The WebSocket relay as a state machine: what each event does, and what every run keeps. */
module RelayState {
  import opened Text

  type ResId = string
  type Token = string
  type Socket = nat
  type Command = string

  /** An HTTP answer: the agent's data with status 200, or an error status. */
  datatype Response = Data(result: string) | Error(status: nat)

  /** A pending response; expired ones stay cached until something looks them up. */
  datatype Pending = Pending(resId: ResId, expired: bool)

  datatype Written = Written(socket: Socket, token: Token, resId: ResId, command: Command)

  /** An agent's execution of a command it received. */
  datatype Executed = Executed(resId: ResId, command: Command, result: string)

  const MAX_RESPONSES := 10000
  const MAX_CONNECTIONS := 6000

  /** Both caches are listed from the least to the most recently used entry. */
  datatype State = State(
    pending: seq<Pending>,
    connections: seq<(Token, Socket)>,
    open: set<Socket>,
    commands: map<ResId, Command>,
    settled: map<ResId, Response>,
    timers: set<ResId>,
    written: seq<Written>,
    executed: set<Executed>)

  const START := State([], [], {}, map[], map[], {}, [], {})

  // ----- The caches -----

  function PendingIds(ps: seq<Pending>): set<ResId> {
    set p | p in ps :: p.resId
  }

  function FindPending(ps: seq<Pending>, r: ResId): (o: Option<Pending>)
    ensures o.Some? ==> o.value in ps && o.value.resId == r
    ensures o.None? <==> r !in PendingIds(ps)
  {
    if |ps| == 0 then None else if ps[0].resId == r then Some(ps[0]) else FindPending(ps[1..], r)
  }

  function DropPending(ps: seq<Pending>, r: ResId): (qs: seq<Pending>)
    ensures |qs| <= |ps|
  {
    if |ps| == 0 then []
    else if ps[0].resId == r then DropPending(ps[1..], r)
    else [ps[0]] + DropPending(ps[1..], r)
  }

  function Expired(ps: seq<Pending>, r: ResId): (qs: seq<Pending>)
    ensures |qs| == |ps|
    ensures forall i :: 0 <= i < |ps| ==> qs[i].resId == ps[i].resId
  {
    seq(|ps|, i requires 0 <= i < |ps| => if ps[i].resId == r then ps[i].(expired := true) else ps[i])
  }

  function SocketOf(cs: seq<(Token, Socket)>, t: Token): (o: Option<Socket>)
    ensures o.Some? ==> (t, o.value) in cs
    ensures o.None? ==> forall k :: (t, k) !in cs
  {
    if |cs| == 0 then None else if cs[0].0 == t then Some(cs[0].1) else SocketOf(cs[1..], t)
  }

  function DropConnection(cs: seq<(Token, Socket)>, t: Token): (ds: seq<(Token, Socket)>)
    ensures |ds| <= |cs|
  {
    if |cs| == 0 then []
    else if cs[0].0 == t then DropConnection(cs[1..], t)
    else [cs[0]] + DropConnection(cs[1..], t)
  }

  /** Looking a token up makes it the most recently used. */
  function TouchConnection(cs: seq<(Token, Socket)>, t: Token): seq<(Token, Socket)> {
    match SocketOf(cs, t)
    case None => cs
    case Some(k) => DropConnection(cs, t) + [(t, k)]
  }

  /** Caching a new token evicts the least recently used one when the cache is full. */
  function AddConnection(cs: seq<(Token, Socket)>, t: Token, k: Socket): seq<(Token, Socket)> {
    (if |cs| >= MAX_CONNECTIONS then cs[1..] else cs) + [(t, k)]
  }

  // ----- What each event does -----

  /** The first settlement of a request stays; settling clears its timer. */
  function Settle(s: State, r: ResId, response: Response): State {
    s.(settled := if r in s.settled then s.settled else s.settled[r := response], timers := s.timers - {r})
  }

  function Close(s: State, r: ResId, response: Response): State {
    Settle(s, r, response).(pending := DropPending(s.pending, r))
  }

  /** A full cache evicts its least recently used request, which is rejected with 500. */
  function MakeRoom(s: State): State {
    if |s.pending| >= MAX_RESPONSES then Settle(s, s.pending[0].resId, Error(500)).(pending := s.pending[1..]) else s
  }

  datatype Event =
    | Execute(resId: ResId, token: Option<Token>, command: Command, sendFails: bool)
    | Answer(resId: ResId, result: string)
    | Register(key: Token, socket: Socket)
    | Reject(socket: Socket)
    | Timer(resId: ResId)
    | Expire(resId: ResId)
    | Opened(socket: Socket)
    | Closed(socket: Socket)
    | Run(order: Written, result: string)

  /** An HTTP command: no token 500, no open socket 523, otherwise written and left pending. */
  function AfterExecute(s: State, r: ResId, token: Option<Token>, command: Command, sendFails: bool): State {
    var s1 := MakeRoom(s.(commands := s.commands[r := command]));
    match token
    case None => Settle(s1, r, Error(500))
    case Some(t) =>
      match SocketOf(s1.connections, t)
      case None => Settle(s1, r, Error(523))
      case Some(k) =>
        if k !in s1.open then Settle(s1.(connections := DropConnection(s1.connections, t)), r, Error(523))
        else
          s1.(pending := s1.pending + [Pending(r, false)],
              connections := TouchConnection(s1.connections, t),
              timers := s1.timers + {r},
              written := if sendFails then s1.written else s1.written + [Written(k, t, r, command)])
  }

  /** Agent data for `r`: 200 for a live pending request, 500 for an expired one, nothing otherwise. */
  function AfterAnswer(s: State, r: ResId, result: string): State {
    match FindPending(s.pending, r)
    case None => s
    case Some(p) => Close(s, r, if p.expired then Error(500) else Data(result))
  }

  /** A message with a token takes the token over unless an open socket holds it. */
  function AfterRegister(s: State, t: Token, k: Socket): State {
    match SocketOf(s.connections, t)
    case None => s.(connections := AddConnection(s.connections, t, k))
    case Some(held) =>
      if held in s.open then s.(connections := TouchConnection(s.connections, t))
      else s.(connections := AddConnection(DropConnection(s.connections, t), t, k))
  }

  /** After ten minutes a live request is closed; deleting it rejects it with 500 before 504 is tried. */
  function AfterTimer(s: State, r: ResId): State {
    match FindPending(s.pending, r)
    case None => s.(timers := s.timers - {r})
    case Some(p) => if p.expired then s.(timers := s.timers - {r}) else Close(s, r, Error(500))
  }

  function After(s: State, e: Event): State {
    match e
    case Execute(r, token, command, sendFails) => AfterExecute(s, r, token, command, sendFails)
    case Answer(r, result) => AfterAnswer(s, r, result)
    case Register(t, k) => AfterRegister(s, t, k)
    case Reject(k) => s.(open := s.open - {k})
    case Timer(r) => AfterTimer(s, r)
    case Expire(r) => s.(pending := Expired(s.pending, r))
    case Opened(k) => s.(open := s.open + {k})
    case Closed(k) => s.(open := s.open - {k})
    case Run(w, result) => s.(executed := s.executed + {Executed(w.resId, w.command, result)})
  }

  /** Request ids are fresh; agents run commands they received, and answer what they ran; a timer
      fires only while it is set. */
  predicate Enabled(s: State, e: Event) {
    match e
    case Execute(r, _, _, _) => r !in s.commands
    case Answer(r, result) => exists x :: x in s.executed && x.resId == r && x.result == result
    case Timer(r) => r in s.timers
    case Run(w, _) => w in s.written
    case _ => true
  }

  predicate IsRun(s: State, events: seq<Event>)
    decreases |events|
  {
    |events| == 0 || (Enabled(s, events[0]) && IsRun(After(s, events[0]), events[1..]))
  }

  function Final(s: State, events: seq<Event>): State
    decreases |events|
  {
    if |events| == 0 then s else Final(After(s, events[0]), events[1..])
  }

  // ----- What every run keeps -----

  predicate DistinctPending(ps: seq<Pending>) {
    forall i, j :: 0 <= i < j < |ps| ==> ps[i].resId != ps[j].resId
  }

  predicate DistinctTokens(cs: seq<(Token, Socket)>) {
    forall i, j :: 0 <= i < j < |cs| ==> cs[i].0 != cs[j].0
  }

  /** A request's callbacks are cached exactly while its HTTP response is unsettled. */
  ghost predicate PendingIffUnsettled(s: State) {
    forall r :: r in PendingIds(s.pending) <==> r in s.commands && r !in s.settled
  }

  ghost predicate TimersPending(s: State) {
    forall r :: r in s.timers ==> r in PendingIds(s.pending)
  }

  ghost predicate Correlated(s: State) {
    && (forall w :: w in s.written ==> w.resId in s.commands && s.commands[w.resId] == w.command)
    && (forall x :: x in s.executed ==> x.resId in s.commands && s.commands[x.resId] == x.command)
    && (forall r :: r in s.settled && s.settled[r].Data? ==>
          r in s.commands && Executed(r, s.commands[r], s.settled[r].result) in s.executed)
  }

  ghost predicate Inv(s: State) {
    && |s.pending| <= MAX_RESPONSES && DistinctPending(s.pending)
    && |s.connections| <= MAX_CONNECTIONS && DistinctTokens(s.connections)
    && PendingIffUnsettled(s)
    && (forall r :: r in s.settled ==> r in s.commands)
    && TimersPending(s)
    && Correlated(s)
  }

  lemma {:induction false} DropPendingIn(ps: seq<Pending>, r: ResId)
    ensures forall p :: p in DropPending(ps, r) <==> p in ps && p.resId != r
  {
    if |ps| > 0 {
      DropPendingIn(ps[1..], r);
      assert ps == [ps[0]] + ps[1..];
    }
  }

  lemma {:induction false} DropConnectionIn(cs: seq<(Token, Socket)>, t: Token)
    ensures forall c :: c in DropConnection(cs, t) <==> c in cs && c.0 != t
  {
    if |cs| > 0 {
      DropConnectionIn(cs[1..], t);
      assert cs == [cs[0]] + cs[1..];
    }
  }

  lemma {:induction false} DropDistinct(ps: seq<Pending>, r: ResId)
    requires DistinctPending(ps)
    ensures DistinctPending(DropPending(ps, r))
    ensures PendingIds(DropPending(ps, r)) == PendingIds(ps) - {r}
  {
    if |ps| > 0 {
      var rest := DropPending(ps[1..], r);
      DropDistinct(ps[1..], r);
      DropIds(ps, r);
      DropPendingIn(ps[1..], r);
      DropPendingIn(ps, r);
      forall q | q in rest
        ensures q.resId != ps[0].resId
      {
        assert q in ps[1..];
      }
    }
  }

  lemma DropIds(ps: seq<Pending>, r: ResId)
    ensures PendingIds(DropPending(ps, r)) == PendingIds(ps) - {r}
  {
    DropPendingIn(ps, r);
    hide DropPending;
    forall q | q in PendingIds(ps) - {r}
      ensures q in PendingIds(DropPending(ps, r))
    {
      var p :| p in ps && p.resId == q;
      assert p in DropPending(ps, r);
    }
  }

  lemma {:induction false} DropTokensDistinct(cs: seq<(Token, Socket)>, t: Token)
    requires DistinctTokens(cs)
    ensures DistinctTokens(DropConnection(cs, t))
    ensures SocketOf(cs, t).Some? ==> |DropConnection(cs, t)| < |cs|
  {
    if |cs| > 0 {
      DropTokensDistinct(cs[1..], t);
      DropConnectionIn(cs[1..], t);
      forall d | d in DropConnection(cs[1..], t)
        ensures d.0 != cs[0].0
      {
        assert d in cs[1..];
      }
    }
  }

  lemma AddTokenDistinct(cs: seq<(Token, Socket)>, t: Token, k: Socket)
    requires DistinctTokens(cs) && SocketOf(cs, t).None? && |cs| <= MAX_CONNECTIONS
    ensures DistinctTokens(AddConnection(cs, t, k)) && |AddConnection(cs, t, k)| <= MAX_CONNECTIONS
  {
    forall i | 0 <= i < |cs|
      ensures cs[i].0 != t
    {
      assert cs[i] in cs && (t, cs[i].1) !in cs;
    }
  }

  lemma {:induction false} DroppedToken(cs: seq<(Token, Socket)>, t: Token)
    ensures SocketOf(DropConnection(cs, t), t).None?
  {
    if |cs| > 0 {
      DroppedToken(cs[1..], t);
    }
  }

  lemma TouchDistinct(cs: seq<(Token, Socket)>, t: Token)
    requires DistinctTokens(cs)
    ensures DistinctTokens(TouchConnection(cs, t)) && |TouchConnection(cs, t)| <= |cs|
  {
    if SocketOf(cs, t).Some? {
      DropTokensDistinct(cs, t);
      DropConnectionIn(cs, t);
      forall d | d in DropConnection(cs, t)
        ensures d.0 != t
      {}
    }
  }

  lemma AppendPending(ps: seq<Pending>, r: ResId)
    requires DistinctPending(ps) && r !in PendingIds(ps)
    ensures DistinctPending(ps + [Pending(r, false)])
    ensures PendingIds(ps + [Pending(r, false)]) == PendingIds(ps) + {r}
  {
    forall i | 0 <= i < |ps|
      ensures ps[i].resId != r
    {
      assert ps[i] in ps;
    }
    var qs := ps + [Pending(r, false)];
    forall x | x in PendingIds(ps) + {r}
      ensures x in PendingIds(qs)
    {
      if x == r {
        assert Pending(r, false) in qs;
      } else {
        var p :| p in ps && p.resId == x;
        assert p in qs;
      }
    }
  }

  /** Closing a pending request keeps everything. */
  lemma CloseKeeps(s: State, r: ResId, response: Response)
    requires Inv(s) && r in PendingIds(s.pending)
    requires response.Data? ==> Executed(r, s.commands[r], response.result) in s.executed
    ensures Inv(Close(s, r, response))
  {
    DropDistinct(s.pending, r);
  }

  lemma MakeRoomKeeps(s: State)
    requires Inv(s)
    ensures Inv(MakeRoom(s)) && |MakeRoom(s).pending| < MAX_RESPONSES
    ensures MakeRoom(s).commands == s.commands && MakeRoom(s).connections == s.connections && MakeRoom(s).open == s.open
  {
    if |s.pending| >= MAX_RESPONSES {
      var first := s.pending[0];
      assert first in s.pending;
      CloseKeeps(s, first.resId, Error(500));
      DropFirst(s.pending);
    }
  }

  lemma DropFirst(ps: seq<Pending>)
    requires |ps| > 0 && DistinctPending(ps)
    ensures DropPending(ps, ps[0].resId) == ps[1..]
  {
    DropMissing(ps[1..], ps[0].resId);
  }

  lemma {:induction false} DropMissing(ps: seq<Pending>, r: ResId)
    requires forall i :: 0 <= i < |ps| ==> ps[i].resId != r
    ensures DropPending(ps, r) == ps
  {
    if |ps| > 0 {
      DropMissing(ps[1..], r);
    }
  }

  /** A new request that is settled at once. */
  lemma NewSettledKeeps(s: State, r: ResId, command: Command, connections: seq<(Token, Socket)>, status: nat)
    requires Inv(s) && r !in s.commands
    requires DistinctTokens(connections) && |connections| <= MAX_CONNECTIONS
    ensures Inv(Settle(s.(commands := s.commands[r := command], connections := connections), r, Error(status)))
  {}

  /** A new request that is left pending, with or without its command written. */
  lemma NewPendingKeeps(s: State, r: ResId, command: Command, connections: seq<(Token, Socket)>, written: seq<Written>)
    requires Inv(s) && r !in s.commands && |s.pending| < MAX_RESPONSES
    requires DistinctTokens(connections) && |connections| <= MAX_CONNECTIONS
    requires forall w :: w in written ==> w in s.written || (w.resId == r && w.command == command)
    ensures Inv(s.(commands := s.commands[r := command], pending := s.pending + [Pending(r, false)],
                   connections := connections, timers := s.timers + {r}, written := written))
  {
    AppendPending(s.pending, r);
    hide PendingIds;
  }

  lemma ExecuteKeeps(s: State, r: ResId, token: Option<Token>, command: Command, sendFails: bool)
    requires Inv(s) && r !in s.commands
    ensures Inv(AfterExecute(s, r, token, command, sendFails))
  {
    var s0 := MakeRoom(s);
    MakeRoomKeeps(s);
    var s1 := MakeRoom(s.(commands := s.commands[r := command]));
    assert s1 == s0.(commands := s0.commands[r := command]);
    assert DistinctTokens(s0.connections) && |s0.connections| <= MAX_CONNECTIONS;
    hide MakeRoom, Inv, DistinctTokens, DropConnection, TouchConnection;
    match token
    case None =>
      NewSettledKeeps(s0, r, command, s0.connections, 500);
    case Some(t) =>
      DropTokensDistinct(s0.connections, t);
      TouchDistinct(s0.connections, t);
      match SocketOf(s0.connections, t)
      case None =>
        NewSettledKeeps(s0, r, command, s0.connections, 523);
      case Some(k) =>
        if k !in s0.open {
          NewSettledKeeps(s0, r, command, DropConnection(s0.connections, t), 523);
        } else {
          NewPendingKeeps(s0, r, command, TouchConnection(s0.connections, t),
                          if sendFails then s0.written else s0.written + [Written(k, t, r, command)]);
        }
  }

  lemma AnswerKeeps(s: State, r: ResId, result: string)
    requires Inv(s) && Enabled(s, Answer(r, result))
    ensures Inv(AfterAnswer(s, r, result))
  {
    var x :| x in s.executed && x.resId == r && x.result == result;
    assert x == Executed(r, s.commands[r], result);
    if r in PendingIds(s.pending) {
      CloseKeeps(s, r, if FindPending(s.pending, r).value.expired then Error(500) else Data(result));
    }
  }

  lemma RegisterKeeps(s: State, t: Token, k: Socket)
    requires Inv(s)
    ensures Inv(AfterRegister(s, t, k))
  {
    TouchDistinct(s.connections, t);
    DropTokensDistinct(s.connections, t);
    DroppedToken(s.connections, t);
    if SocketOf(s.connections, t).None? {
      AddTokenDistinct(s.connections, t, k);
    } else {
      AddTokenDistinct(DropConnection(s.connections, t), t, k);
    }
  }

  lemma ExpireKeeps(s: State, r: ResId)
    requires Inv(s)
    ensures Inv(After(s, Expire(r)))
  {
    var qs := Expired(s.pending, r);
    forall x
      ensures x in PendingIds(qs) <==> x in PendingIds(s.pending)
    {
      if x in PendingIds(s.pending) {
        var i :| 0 <= i < |s.pending| && s.pending[i].resId == x;
        assert qs[i] in qs;
      }
      if x in PendingIds(qs) {
        var i :| 0 <= i < |qs| && qs[i].resId == x;
        assert s.pending[i] in s.pending;
      }
    }
  }

  lemma TimerKeeps(s: State, r: ResId)
    requires Inv(s)
    ensures Inv(AfterTimer(s, r))
  {
    if r in PendingIds(s.pending) {
      CloseKeeps(s, r, Error(500));
    }
  }

  lemma RunOrderKeeps(s: State, w: Written, result: string)
    requires Inv(s) && w in s.written
    ensures Inv(s.(executed := s.executed + {Executed(w.resId, w.command, result)}))
  {}

  /** Every event keeps the invariant. */
  lemma EventKeeps(s: State, e: Event)
    requires Inv(s) && Enabled(s, e)
    ensures Inv(After(s, e))
  {
    hide AfterExecute, AfterAnswer, AfterRegister, AfterTimer, Expired;
    match e
    case Execute(r, token, command, sendFails) => ExecuteKeeps(s, r, token, command, sendFails);
    case Answer(r, result) => AnswerKeeps(s, r, result);
    case Register(t, k) => RegisterKeeps(s, t, k);
    case Timer(r) => TimerKeeps(s, r);
    case Expire(r) => ExpireKeeps(s, r);
    case Run(w, result) => RunOrderKeeps(s, w, result);
    case _ =>
  }

  /** In every run: a request's callbacks are cached exactly while it is unsettled, at most 10000 are,
      and an answer with data carries the result of executing the request's own command. */
  lemma {:induction false} RunKeeps(s: State, events: seq<Event>)
    requires Inv(s) && IsRun(s, events)
    ensures Inv(Final(s, events))
    decreases |events|
  {
    if |events| > 0 {
      EventKeeps(s, events[0]);
      RunKeeps(After(s, events[0]), events[1..]);
    }
  }

  /** What this says of every run from an empty relay, in terms of its requests. */
  lemma EveryRun(events: seq<Event>)
    requires IsRun(START, events)
    ensures var s := Final(START, events);
            && |s.pending| <= MAX_RESPONSES
            && (forall r :: r in s.commands ==> (r in PendingIds(s.pending) <==> r !in s.settled))
            && (forall r :: r in s.settled && s.settled[r].Data? ==>
                  r in s.commands && Executed(r, s.commands[r], s.settled[r].result) in s.executed)
  {
    assert Inv(START);
    RunKeeps(START, events);
  }

  lemma EventSettlesOnce(s: State, e: Event, r: ResId)
    requires Inv(s) && Enabled(s, e) && r in s.settled
    ensures r in After(s, e).settled && After(s, e).settled[r] == s.settled[r]
  {
    hide DropPending, DropConnection, TouchConnection, AddConnection, Expired;
  }

  /** A settled response never changes again. */
  lemma {:induction false} SettledOnce(s: State, events: seq<Event>, r: ResId)
    requires Inv(s) && IsRun(s, events) && r in s.settled
    ensures r in Final(s, events).settled && Final(s, events).settled[r] == s.settled[r]
    decreases |events|
  {
    hide After, Enabled, Inv;
    if |events| > 0 {
      EventKeeps(s, events[0]);
      EventSettlesOnce(s, events[0], r);
      SettledOnce(After(s, events[0]), events[1..], r);
    }
  }

  /** An answer to a request that is already settled, or was never made, changes nothing at all. */
  lemma LateAnswer(s: State, r: ResId, result: string)
    requires Inv(s) && (r in s.settled || r !in s.commands)
    ensures After(s, Answer(r, result)) == s
  {}

  // ----- The socket registry -----

  lemma {:induction false} SocketOfDistinct(cs: seq<(Token, Socket)>, t: Token, k: Socket)
    requires DistinctTokens(cs) && (t, k) in cs
    ensures SocketOf(cs, t) == Some(k)
  {
    if cs[0].0 == t {
      var i :| 0 <= i < |cs| && cs[i] == (t, k);
      assert i == 0;
    } else {
      assert (t, k) in cs[1..];
      SocketOfDistinct(cs[1..], t, k);
    }
  }

  /** The only way a cached connection can be pushed out: a new token enters a full cache. */
  predicate EvictsOldest(s: State, e: Event, t: Token) {
    e.Register? && |s.connections| == MAX_CONNECTIONS && s.connections[0].0 == t && SocketOf(s.connections, e.key).None?
  }

  /** An open socket keeps its token through every event but a capacity eviction, unless it closes. */
  lemma OpenSocketKeepsToken(s: State, e: Event, t: Token, k: Socket)
    requires Inv(s) && Enabled(s, e)
    requires SocketOf(s.connections, t) == Some(k) && k in s.open && !EvictsOldest(s, e, t)
    ensures SocketOf(After(s, e).connections, t) == Some(k)
  {
    var s' := After(s, e);
    EventKeeps(s, e);
    assert (t, k) in s'.connections by {
      hide Inv, Enabled, DropPending, Expired, Settle, FindPending;
      ConnectionStays(s, e, t, k);
    }
    SocketOfDistinct(s'.connections, t, k);
  }

  lemma TouchStays(cs: seq<(Token, Socket)>, t: Token, k: Socket, other: Token)
    requires DistinctTokens(cs) && SocketOf(cs, t) == Some(k)
    ensures (t, k) in TouchConnection(cs, other)
  {
    DropConnectionIn(cs, other);
    hide SocketOf, DropConnection;
  }

  lemma ConnectionStays(s: State, e: Event, t: Token, k: Socket)
    requires |s.connections| <= MAX_CONNECTIONS && DistinctTokens(s.connections)
    requires SocketOf(s.connections, t) == Some(k) && k in s.open && !EvictsOldest(s, e, t)
    ensures (t, k) in After(s, e).connections
  {
    match e
    case Execute(r, token, command, _) =>
      var s1 := MakeRoom(s.(commands := s.commands[r := command]));
      assert s1.connections == s.connections && s1.open == s.open;
      hide MakeRoom, SocketOf, DropConnection, TouchConnection, DistinctTokens;
      if token.Some? {
        TouchStays(s.connections, t, k, token.value);
      }
    case Register(key, socket) =>
      DropTokensDistinct(s.connections, key);
      DropConnectionIn(s.connections, key);
      TouchStays(s.connections, t, k, key);
      hide SocketOf, DropConnection, TouchConnection, DistinctTokens;
    case _ =>
      hide DropPending, Expired, FindPending, SocketOf, DistinctTokens;
  }

  /** A command is written only to the open socket registered under its token, and it is answered 523
      exactly when its token has no cached open socket at that moment. */
  lemma CommandGoesToItsToken(s: State, r: ResId, t: Token, command: Command, sendFails: bool)
    requires Inv(s) && r !in s.commands
    ensures var s', held := AfterExecute(s, r, Some(t), command, sendFails), SocketOf(s.connections, t);
            var reachable := held.Some? && held.value in s.open;
            && (r in s'.settled && s'.settled[r] == Error(523) <==> !reachable)
            && (r in PendingIds(s'.pending) <==> reachable)
            && s'.written == (if reachable && !sendFails then s.written + [Written(held.value, t, r, command)] else s.written)
  {
    ExecuteKeeps(s, r, Some(t), command, sendFails);
    hide DropPending, DropConnection, TouchConnection;
    var s1 := MakeRoom(s.(commands := s.commands[r := command]));
    assert s1.connections == s.connections && s1.open == s.open && r !in s1.settled && s1.written == s.written;
  }

  /** The ten-minute timer never answers 504: a live request it closes is answered 500. */
  lemma TimerAnswers500(s: State, r: ResId)
    requires Inv(s) && Enabled(s, Timer(r))
    ensures var s' := After(s, Timer(r));
            if FindPending(s.pending, r).value.expired then s' == s.(timers := s.timers - {r})
            else r in s'.settled && s'.settled[r] == Error(500) && r !in PendingIds(s'.pending)
  {
    CloseKeeps(s, r, Error(500));
  }
}
