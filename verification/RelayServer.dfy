/** The relay's handlers, step by step over the caches, callbacks and timers they share. Each one is
    proved to do what RelayState says about its event, in particular whatever the cache's dispose
    callback, which rejects, does in the middle. */
module RelayServer {
  import opened Text
  import opened RelayState
  import opened RelayRuns

  datatype OperationType = InitialConnection | DataFromAgent | OtherOperation

  /** A WebSocket message; absent fields are empty strings. */
  datatype Message = Unparsable | Message(operationType: OperationType, resId: ResId, connectionToken: Token, raw: string)

  /** The event a message from `socket` amounts to, if any; `valid` and `hashed` are the answers of the
      token validator and the hash for its token. */
  function EventOf(m: Message, socket: Socket, valid: bool, hashed: Token): Option<Event> {
    if m.Unparsable? then None
    else
      var initial := m.connectionToken != "" && m.operationType == InitialConnection;
      if initial && !valid then Some(Reject(socket))
      else
        var token := if initial then hashed else m.connectionToken;
        if m.operationType == DataFromAgent && m.resId != "" then Some(Answer(m.resId, m.raw))
        else if token == "" then None
        else Some(Register(token, socket))
  }

  /** The token that a message which is no agent data registers its socket under, if any: the hash of a first
      message's token once that is valid, and the token itself otherwise. */
  function Registers(m: Message, valid: bool, hashed: Token): Option<Token> {
    if m.Unparsable? || (m.operationType == DataFromAgent && m.resId != "") || m.connectionToken == "" then None
    else if m.operationType == InitialConnection then if valid && hashed != "" then Some(hashed) else None
    else Some(m.connectionToken)
  }

  function AfterMaybe(s: State, e: Option<Event>): State {
    match e
    case None => s
    case Some(event) => After(s, event)
  }

  /** What a message leaves behind, by its kind. */
  lemma MessageMeaning(s: State, m: Message, socket: Socket, valid: bool, hashed: Token)
    ensures var s', t := AfterMaybe(s, EventOf(m, socket, valid, hashed)), Registers(m, valid, hashed);
            && (t.Some? ==>
                  var held := SocketOf(s.connections, t.value);
                  SocketOf(s'.connections, t.value) == if held.Some? && held.value in s.open then held else Some(socket))
            && (t.None? ==> s'.connections == s.connections)
            && s'.open == (if m.Message? && m.connectionToken != "" && m.operationType == InitialConnection && !valid
                           then s.open - {socket} else s.open)
  {
    var t := Registers(m, valid, hashed);
    if t.Some? {
      RegisterTakes(s, t.value, socket);
    }
    hide SocketOf, TouchConnection, AddConnection, DropConnection, FindPending, DropPending;
  }

  lemma {:induction false} DropTwice(ps: seq<Pending>, r: ResId)
    ensures DropPending(DropPending(ps, r), r) == DropPending(ps, r)
  {
    if |ps| > 0 {
      DropTwice(ps[1..], r);
    }
  }

  lemma DropUnfold(ps: seq<Pending>, r: ResId)
    requires |ps| > 0
    ensures DropPending(ps, r) == (if ps[0].resId == r then [] else [ps[0]]) + DropPending(ps[1..], r)
  {}

  lemma {:induction false} DropConcat(ps: seq<Pending>, qs: seq<Pending>, r: ResId)
    ensures DropPending(ps + qs, r) == DropPending(ps, r) + DropPending(qs, r)
  {
    if |ps| == 0 {
      assert ps + qs == qs && DropPending(ps, r) == [];
    } else {
      DropConcat(ps[1..], qs, r);
      DropUnfold(ps + qs, r);
      DropUnfold(ps, r);
      assert (ps + qs)[0] == ps[0] && (ps + qs)[1..] == ps[1..] + qs;
      Assoc(if ps[0].resId == r then [] else [ps[0]], DropPending(ps[1..], r), DropPending(qs, r));
    }
  }

  /** Moving an entry to the recent end and then dropping it is dropping it. */
  lemma DropTouched(ps: seq<Pending>, p: Pending)
    ensures DropPending(DropPending(ps, p.resId) + [p], p.resId) == DropPending(ps, p.resId)
  {
    DropConcat(DropPending(ps, p.resId), [p], p.resId);
    DropTwice(ps, p.resId);
  }

  lemma {:induction false} FindAppended(ps: seq<Pending>, p: Pending)
    requires p.resId !in PendingIds(ps)
    ensures FindPending(ps + [p], p.resId) == Some(p)
    ensures DropPending(ps + [p], p.resId) == ps
  {
    forall i | 0 <= i < |ps|
      ensures ps[i].resId != p.resId
    {
      assert ps[i] in ps;
    }
    DropConcat(ps, [p], p.resId);
    DropMissing(ps, p.resId);
    FindLast(ps, p);
  }

  lemma {:induction false} FindLast(ps: seq<Pending>, p: Pending)
    requires forall i :: 0 <= i < |ps| ==> ps[i].resId != p.resId
    ensures FindPending(ps + [p], p.resId) == Some(p)
  {
    if |ps| == 0 {
      assert ps + [p] == [p];
    } else {
      FindLast(ps[1..], p);
      assert (ps + [p])[1..] == ps[1..] + [p];
    }
  }

  class Server {
    var responseCache: seq<Pending>
    var connectionsCache: seq<(Token, Socket)>
    var open: set<Socket>
    var responses: map<ResId, Response>
    var timers: set<ResId>
    ghost var commands: map<ResId, Command>
    ghost var written: seq<Written>
    ghost var executed: set<Executed>

    ghost function Abs(): State
      reads this
    {
      State(responseCache, connectionsCache, open, commands, responses, timers, written, executed)
    }

    constructor ()
      ensures Abs() == START
    {
      responseCache, connectionsCache, open, responses, timers := [], [], {}, map[], {};
      commands, written, executed := map[], [], {};
    }

    /** A promise keeps its first settlement. */
    method Resolve(r: ResId, response: Response)
      modifies this`responses
      ensures responses == if r in old(responses) then old(responses) else old(responses)[r := response]
    {
      if r !in responses {
        responses := responses[r := response];
      }
    }

    /** handleResolve, handleReject and handleSendError: clear the timer, then settle. */
    method Handle(r: ResId, response: Response)
      modifies this`responses, this`timers
      ensures Abs() == Settle(old(Abs()), r, response)
    {
      timers := timers - {r};
      Resolve(r, response);
    }

    /** Every removal from the response cache runs `dispose`, which rejects. */
    method Dispose(p: Pending)
      modifies this`responses, this`timers
      ensures Abs() == Settle(old(Abs()), p.resId, Error(500))
    {
      Handle(p.resId, Error(500));
    }

    method DeleteResponse(r: ResId)
      modifies this`responseCache, this`responses, this`timers
      ensures Abs() == if r in PendingIds(old(responseCache)) then Close(old(Abs()), r, Error(500)) else old(Abs())
    {
      var found := FindPending(responseCache, r);
      if found.Some? {
        responseCache := DropPending(responseCache, r);
        Dispose(found.value);
      }
    }

    /** A live entry becomes the most recently used one; an expired one is deleted, and so disposed. */
    method GetResponse(r: ResId) returns (found: bool)
      modifies this`responseCache, this`responses, this`timers
      ensures match FindPending(old(responseCache), r)
              case None => !found && Abs() == old(Abs())
              case Some(p) =>
                if p.expired then !found && Abs() == Close(old(Abs()), r, Error(500))
                else found && Abs() == old(Abs()).(pending := DropPending(old(responseCache), r) + [p])
    {
      var p := FindPending(responseCache, r);
      if p.None? {
        return false;
      }
      if p.value.expired {
        DeleteResponse(r);
        return false;
      }
      responseCache := DropPending(responseCache, r) + [p.value];
      found := true;
    }

    method CacheResponse(r: ResId)
      modifies this`responseCache, this`responses, this`timers
      ensures var s := MakeRoom(old(Abs())); Abs() == s.(pending := s.pending + [Pending(r, false)])
    {
      if |responseCache| >= MAX_RESPONSES {
        var oldest := responseCache[0];
        responseCache := responseCache[1..];
        Dispose(oldest);
      }
      responseCache := responseCache + [Pending(r, false)];
    }

    /** Answer `r` with an error, then delete it: the rejection by `dispose` comes too late. */
    method SendError(r: ResId, status: nat)
      requires r in PendingIds(responseCache) && !FindPending(responseCache, r).value.expired && r !in responses
      modifies this`responseCache, this`responses, this`timers
      ensures Abs() == Close(old(Abs()), r, Error(status))
    {
      ghost var p := FindPending(responseCache, r).value;
      var found := GetResponse(r);
      DropTouched(old(responseCache), p);
      assert p in responseCache;
      Handle(r, Error(status));
      DeleteResponse(r);
    }

    method SendCommandToClient(t: Token, r: ResId, command: Command, sendFails: bool)
      requires r !in responses && r in PendingIds(responseCache) && !FindPending(responseCache, r).value.expired
      modifies this`connectionsCache, this`responseCache, this`responses, this`timers, this`written
      ensures var s, held := old(Abs()), SocketOf(old(connectionsCache), t);
              Abs() ==
              if held.None? then Close(s, r, Error(523))
              else if held.value !in open then Close(s.(connections := DropConnection(s.connections, t)), r, Error(523))
              else s.(connections := TouchConnection(s.connections, t),
                      written := if sendFails then s.written else s.written + [Written(held.value, t, r, command)])
    {
      var cached := SocketOf(connectionsCache, t);
      connectionsCache := TouchConnection(connectionsCache, t);
      if cached.None? {
        SendError(r, 523);
        return;
      }
      if cached.value !in open {
        TouchThenDrop(old(connectionsCache), t);
        connectionsCache := DropConnection(connectionsCache, t);
        SendError(r, 523);
        return;
      }
      if !sendFails {
        written := written + [Written(cached.value, t, r, command)];
      }
    }

    /** executeCommand, for a fresh request id. Without a token, looking the connection up throws. */
    method ExecuteCommand(r: ResId, token: Option<Token>, command: Command, sendFails: bool)
      requires r !in responses && r !in PendingIds(responseCache)
      modifies this
      ensures Abs() == AfterExecute(old(Abs()), r, token, command, sendFails)
    {
      commands := commands[r := command];
      ghost var s1 := MakeRoom(Abs());
      MakeRoomPending(Abs(), r);
      timers := timers + {r};
      CacheResponse(r);
      FindAppended(s1.pending, Pending(r, false));
      assert Abs() == s1.(pending := s1.pending + [Pending(r, false)], timers := s1.timers + {r});
      match token {
        case None =>
          timers := timers - {r};
          DeleteResponse(r);
          Resolve(r, Error(500));
        case Some(t) =>
          SendCommandToClient(t, r, command, sendFails);
      }
    }

    /** The ten-minute timer: `delete` disposes, and so rejects, before 504 is tried. */
    method TimeoutFires(r: ResId)
      requires r in timers
      modifies this`responseCache, this`responses, this`timers
      ensures Abs() == AfterTimer(old(Abs()), r)
    {
      timers := timers - {r};
      var found := FindPending(responseCache, r);
      if found.Some? && !found.value.expired {
        DeleteResponse(r);
        Resolve(r, Error(504));
      }
    }

    /** Agent data: the live request it answers gets it, and is then deleted. */
    method DeliverAnswer(r: ResId, raw: string)
      requires r in PendingIds(responseCache) ==> r !in responses
      modifies this`responseCache, this`responses, this`timers
      ensures Abs() == AfterAnswer(old(Abs()), r, raw)
      ensures FindPending(old(responseCache), r) == Some(Pending(r, false)) ==> r in responses && responses[r] == Data(raw)
    {
      var cached := GetResponse(r);
      if cached {
        ghost var p := FindPending(old(responseCache), r).value;
        DropTouched(old(responseCache), p);
        assert p in responseCache;
        Handle(r, Data(raw));
        DeleteResponse(r);
      }
    }

    /** A socket takes its token over unless an open socket holds it. */
    method RegisterSocket(t: Token, socket: Socket)
      modifies this`connectionsCache
      ensures Abs() == AfterRegister(old(Abs()), t, socket)
      ensures var held := SocketOf(old(connectionsCache), t);
              SocketOf(connectionsCache, t) == if held.Some? && held.value in open then held else Some(socket)
    {
      RegisterTakes(Abs(), t, socket);
      var held := SocketOf(connectionsCache, t);
      connectionsCache := TouchConnection(connectionsCache, t);
      if held.None? {
        CacheConnection(t, socket);
      } else if held.value !in open {
        TouchThenDrop(old(connectionsCache), t);
        connectionsCache := DropConnection(connectionsCache, t);
        CacheConnection(t, socket);
      }
    }

    /** The message handler; its only effects come after the token validator has answered. */
    method OnMessage(socket: Socket, m: Message, valid: bool, hashed: Token)
      requires m.Message? && m.resId in PendingIds(responseCache) ==> m.resId !in responses
      modifies this`connectionsCache, this`responseCache, this`responses, this`timers, this`open
      ensures Abs() == AfterMaybe(old(Abs()), EventOf(m, socket, valid, hashed))
      ensures m.Message? && m.operationType == DataFromAgent && m.resId != ""
              && FindPending(old(responseCache), m.resId) == Some(Pending(m.resId, false))
              ==> m.resId in responses && responses[m.resId] == Data(m.raw)
      ensures var t := Registers(m, valid, hashed);
              if t.None? then connectionsCache == old(connectionsCache)
              else
                var held := SocketOf(old(connectionsCache), t.value);
                SocketOf(connectionsCache, t.value) == if held.Some? && held.value in open then held else Some(socket)
    {
      hide AfterAnswer, AfterRegister, SocketOf, FindPending;
      if m.Unparsable? {
        return;
      }
      var connectionToken := m.connectionToken;
      if connectionToken != "" && m.operationType == InitialConnection {
        if !valid {
          open := open - {socket};
          return;
        }
        connectionToken := hashed;
      }
      if m.operationType == DataFromAgent && m.resId != "" {
        DeliverAnswer(m.resId, m.raw);
        return;
      }
      if connectionToken == "" {
        return;
      }
      RegisterSocket(connectionToken, socket);
    }

    method CacheConnection(t: Token, k: Socket)
      modifies this`connectionsCache
      ensures connectionsCache == AddConnection(old(connectionsCache), t, k)
    {
      if |connectionsCache| >= MAX_CONNECTIONS {
        connectionsCache := connectionsCache[1..];
      }
      connectionsCache := connectionsCache + [(t, k)];
    }
  }

  lemma MakeRoomPending(s: State, r: ResId)
    requires r !in PendingIds(s.pending) && r !in s.settled
    ensures var s1 := MakeRoom(s); r !in PendingIds(s1.pending) && r !in s1.settled
    ensures MakeRoom(s.(timers := s.timers + {r})) == MakeRoom(s).(timers := MakeRoom(s).timers + {r})
  {
    if |s.pending| >= MAX_RESPONSES {
      assert s.pending[0] in s.pending;
    }
  }

  lemma DropConnectionUnfold(cs: seq<(Token, Socket)>, t: Token)
    requires |cs| > 0
    ensures DropConnection(cs, t) == (if cs[0].0 == t then [] else [cs[0]]) + DropConnection(cs[1..], t)
  {}

  lemma {:induction false} DropConnectionConcat(cs: seq<(Token, Socket)>, ds: seq<(Token, Socket)>, t: Token)
    ensures DropConnection(cs + ds, t) == DropConnection(cs, t) + DropConnection(ds, t)
  {
    if |cs| == 0 {
      assert cs + ds == ds && DropConnection(cs, t) == [];
    } else {
      DropConnectionConcat(cs[1..], ds, t);
      DropConnectionUnfold(cs + ds, t);
      DropConnectionUnfold(cs, t);
      assert (cs + ds)[0] == cs[0] && (cs + ds)[1..] == cs[1..] + ds;
      Assoc(if cs[0].0 == t then [] else [cs[0]], DropConnection(cs[1..], t), DropConnection(ds, t));
    }
  }

  lemma {:induction false} DropConnectionTwice(cs: seq<(Token, Socket)>, t: Token)
    ensures DropConnection(DropConnection(cs, t), t) == DropConnection(cs, t)
  {
    if |cs| > 0 {
      DropConnectionTwice(cs[1..], t);
    }
  }

  lemma TouchThenDrop(cs: seq<(Token, Socket)>, t: Token)
    ensures DropConnection(TouchConnection(cs, t), t) == DropConnection(cs, t)
  {
    match SocketOf(cs, t)
    case None =>
    case Some(k) =>
      DropConnectionConcat(DropConnection(cs, t), [(t, k)], t);
      DropConnectionTwice(cs, t);
  }
}
