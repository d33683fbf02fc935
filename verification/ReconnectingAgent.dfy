/** The agent's connection to the relay: one socket or one reconnect timer at a time, with growing delays. */
module ReconnectingAgent {
  import opened Text

  const MAX_DELAY := 30000

  function Min(a: nat, b: nat): nat {
    if a <= b then a else b
  }

  /** `interval` is in milliseconds; no `maxAttempts` means to try for ever. */
  datatype Config = Config(interval: nat, maxAttempts: Option<nat>)

  /** The client's fields and what surrounds it: `live` sockets (created, and not reported closed yet),
      how many sockets were ever created, pending reconnect timers, and the delays chosen since the
      connection was last open. */
  datatype Client = Client(
    config: Config, ws: Option<nat>, attempts: nat, shuttingDown: bool, exited: bool,
    live: set<nat>, created: nat, timers: nat, delays: seq<nat>)

  datatype Event = Opened(socket: nat) | Closed(socket: nat) | Failed(socket: nat) | TimerFires | Disconnect

  // ----- What each event does -----

  function Connect(c: Client): Client {
    if c.shuttingDown then c
    else c.(ws := Some(c.created), live := c.live + {c.created}, created := c.created + 1)
  }

  function Delay(config: Config, attempt: nat): nat {
    Min(config.interval * attempt, MAX_DELAY)
  }

  function ScheduleReconnect(c: Client): Client {
    if c.shuttingDown then c
    else if c.config.maxAttempts.Some? && c.attempts >= c.config.maxAttempts.value then c.(exited := true)
    else c.(attempts := c.attempts + 1, timers := c.timers + 1, delays := c.delays + [Delay(c.config, c.attempts + 1)])
  }

  function After(c: Client, e: Event): Client
    requires Enabled(c, e)
  {
    match e
    case Opened(_) => c.(attempts := 0, delays := [])
    case Closed(k) => ScheduleReconnect(c.(live := c.live - {k}))
    case Failed(_) => c
    case TimerFires => Connect(c.(timers := c.timers - 1))
    case Disconnect => c.(shuttingDown := true, ws := None)
  }

  predicate Enabled(c: Client, e: Event) {
    && !c.exited
    && match e
       case Opened(k) => k in c.live
       case Closed(k) => k in c.live
       case Failed(k) => k in c.live
       case TimerFires => c.timers > 0
       case Disconnect => true
  }

  predicate IsRun(c: Client, events: seq<Event>)
    decreases |events|
  {
    |events| == 0 || (Enabled(c, events[0]) && IsRun(After(c, events[0]), events[1..]))
  }

  function Final(c: Client, events: seq<Event>): Client
    requires IsRun(c, events)
    decreases |events|
  {
    if |events| == 0 then c else Final(After(c, events[0]), events[1..])
  }

  function Fresh(config: Config): Client {
    Client(config, None, 0, false, false, {}, 0, 0, [])
  }

  // ----- What every run keeps -----

  predicate Inv(c: Client) {
    && (forall k :: k in c.live ==> k < c.created)
    && (!c.shuttingDown && !c.exited ==> |c.live| + c.timers == 1)
    && |c.delays| == c.attempts
    && (forall j :: 0 <= j < |c.delays| ==> c.delays[j] == Delay(c.config, j + 1))
  }

  lemma EventKeeps(c: Client, e: Event)
    requires Inv(c) && Enabled(c, e)
    ensures Inv(After(c, e)) && After(c, e).config == c.config
    ensures c.shuttingDown ==> After(c, e).created == c.created && After(c, e).shuttingDown
  {
    match e
    case Closed(k) =>
      assert |c.live - {k}| == |c.live| - 1;
    case TimerFires =>
      assert c.created !in c.live;
      assert |c.live + {c.created}| == |c.live| + 1;
    case _ =>
  }

  /** In every run of a connected client: until it shuts down or gives up there is exactly one socket
      or timer, and the delays since it was last open are those of attempts 1, 2, 3, ... */
  lemma {:induction false} RunKeeps(c: Client, events: seq<Event>)
    requires Inv(c) && IsRun(c, events)
    ensures Inv(Final(c, events)) && Final(c, events).config == c.config
    decreases |events|
  {
    if |events| > 0 {
      EventKeeps(c, events[0]);
      RunKeeps(After(c, events[0]), events[1..]);
    }
  }

  /** After `disconnect` no socket is created any more. */
  lemma {:induction false} NoSocketAfterDisconnect(c: Client, events: seq<Event>)
    requires Inv(c) && c.shuttingDown && IsRun(c, events)
    ensures Final(c, events).created == c.created
    decreases |events|
  {
    if |events| > 0 {
      EventKeeps(c, events[0]);
      NoSocketAfterDisconnect(After(c, events[0]), events[1..]);
    }
  }

  function Sum(xs: seq<nat>): nat {
    if |xs| == 0 then 0 else Sum(xs[..|xs| - 1]) + xs[|xs| - 1]
  }

  /** How long `k` attempts wait in all: a triangular number of intervals until the cap is reached,
      then the cap each time. */
  function TotalWait(interval: nat, k: nat): nat
    requires interval > 0
  {
    var m := MAX_DELAY / interval;
    if k <= m then interval * (k * (k + 1) / 2) else interval * (m * (m + 1) / 2) + (k - m) * MAX_DELAY
  }

  lemma Triangular(k: nat)
    requires k > 0
    ensures k * (k + 1) / 2 == (k - 1) * k / 2 + k
  {
    assert k * (k + 1) == (k - 1) * k + 2 * k;
  }

  lemma CapReached(interval: nat, k: nat)
    requires interval > 0
    ensures interval * k <= MAX_DELAY <==> k <= MAX_DELAY / interval
  {
    var m := MAX_DELAY / interval;
    assert MAX_DELAY == interval * m + MAX_DELAY % interval;
    if k <= m {
      assert interval * k <= interval * m;
    } else {
      assert interval * k >= interval * (m + 1) == interval * m + interval;
    }
  }

  lemma TotalWaitStep(interval: nat, k: nat)
    requires interval > 0 && k > 0
    ensures TotalWait(interval, k) == TotalWait(interval, k - 1) + Min(interval * k, MAX_DELAY)
  {
    var m := MAX_DELAY / interval;
    CapReached(interval, k);
    if k <= m {
      Triangular(k);
      var t, u := k * (k + 1) / 2, (k - 1) * k / 2;
      assert interval * t == interval * (u + k) == interval * u + interval * k;
    } else if k == m + 1 {
      assert (k - 1) * k / 2 == m * (m + 1) / 2;
    }
  }

  lemma {:induction false} SumOfDelays(config: Config, delays: seq<nat>)
    requires config.interval > 0
    requires forall j :: 0 <= j < |delays| ==> delays[j] == Delay(config, j + 1)
    ensures Sum(delays) == TotalWait(config.interval, |delays|)
  {
    if |delays| == 0 {
      assert 0 * 1 / 2 == 0;
    } else {
      SumOfDelays(config, delays[..|delays| - 1]);
      TotalWaitStep(config.interval, |delays|);
    }
  }

  lemma DelaysGrow(config: Config, i: nat, j: nat)
    requires i <= j
    ensures Delay(config, i) <= Delay(config, j) <= MAX_DELAY
  {
    assert config.interval * i <= config.interval * j;
  }

  /** In every run, the delays since the connection was last open never shrink and never exceed 30 s,
      and they add up to the closed form of the number of failed attempts. */
  lemma DelaysSinceOpen(config: Config, events: seq<Event>)
    requires config.interval > 0 && IsRun(Connect(Fresh(config)), events)
    ensures var c := Final(Connect(Fresh(config)), events);
            && (!c.shuttingDown && !c.exited ==> |c.live| + c.timers == 1)
            && (forall i, j :: 0 <= i <= j < |c.delays| ==> c.delays[i] <= c.delays[j] <= MAX_DELAY)
            && Sum(c.delays) == TotalWait(config.interval, c.attempts)
  {
    var start := Connect(Fresh(config));
    assert start.live == {0};
    RunKeeps(start, events);
    var c := Final(start, events);
    SumOfDelays(config, c.delays);
    forall i, j | 0 <= i <= j < |c.delays|
      ensures c.delays[i] <= c.delays[j] <= MAX_DELAY
    {
      DelaysGrow(config, i + 1, j + 1);
    }
  }

  // ----- In terms of what happened -----

  lemma {:induction false} Snoc(c: Client, events: seq<Event>)
    requires |events| > 0
    ensures var init, last := events[..|events| - 1], events[|events| - 1];
            && (IsRun(c, events) <==> IsRun(c, init) && Enabled(Final(c, init), last))
            && (IsRun(c, events) ==> Final(c, events) == After(Final(c, init), last))
    decreases |events|
  {
    hide Enabled;
    var init, last := events[..|events| - 1], events[|events| - 1];
    if |events| == 1 {
      assert init == [] && events[1..] == [];
    } else if Enabled(c, events[0]) {
      Snoc(After(c, events[0]), events[1..]);
      assert events[1..][..|events| - 2] == init[1..] && events[1..][|events| - 2] == last;
    }
  }

  /** How often a socket closed since one was last open. */
  function FailuresSinceOpen(events: seq<Event>): nat {
    if |events| == 0 then 0
    else
      var last, before := events[|events| - 1], FailuresSinceOpen(events[..|events| - 1]);
      if last.Opened? then 0 else if last.Closed? then before + 1 else before
  }

  predicate Disconnected(events: seq<Event>) {
    exists i :: 0 <= i < |events| && events[i].Disconnect?
  }

  /** How often the reconnect timer fired before the client was told to disconnect. */
  function Reconnects(events: seq<Event>): nat {
    if |events| == 0 then 0
    else
      var init := events[..|events| - 1];
      Reconnects(init) + if events[|events| - 1].TimerFires? && !Disconnected(init) then 1 else 0
  }

  function Start(config: Config): Client {
    Connect(Fresh(config))
  }

  predicate Exhausted(config: Config, failures: nat) {
    config.maxAttempts.Some? && failures >= config.maxAttempts.value
  }

  /** The client's fields, by what happened: it shuts down when told to; it has created one socket, and one more
      for each timer; it holds the newest one; and its delays are those of the failures since it was open. */
  predicate Explained(c: Client, config: Config, events: seq<Event>) {
    && c.config == config && (c.shuttingDown <==> Disconnected(events))
    && c.created == 1 + Reconnects(events)
    && c.ws == (if Disconnected(events) then None else Some(Reconnects(events)))
    && (!c.shuttingDown && !c.exited ==>
          && c.attempts == FailuresSinceOpen(events)
          && |c.delays| == FailuresSinceOpen(events)
          && (forall j :: 0 <= j < |c.delays| ==> c.delays[j] == Min(config.interval * (j + 1), 30000))
          && (config.maxAttempts.Some? ==> FailuresSinceOpen(events) <= config.maxAttempts.value))
  }

  lemma DisconnectedSnoc(init: seq<Event>, e: Event)
    ensures Disconnected(init + [e]) <==> Disconnected(init) || e.Disconnect?
  {
    var events := init + [e];
    assert events[|init|] == e;
    assert forall i :: 0 <= i < |init| ==> events[i] == init[i];
  }

  lemma CountsSnoc(init: seq<Event>, e: Event)
    ensures FailuresSinceOpen(init + [e]) ==
            if e.Opened? then 0 else if e.Closed? then FailuresSinceOpen(init) + 1 else FailuresSinceOpen(init)
    ensures Reconnects(init + [e]) == Reconnects(init) + if e.TimerFires? && !Disconnected(init) then 1 else 0
  {
    assert (init + [e])[..|init|] == init;
    hide Disconnected;
  }

  lemma DelayAfter(config: Config, delays: seq<nat>)
    requires forall j :: 0 <= j < |delays| ==> delays[j] == Min(config.interval * (j + 1), 30000)
    ensures var more := delays + [Delay(config, |delays| + 1)];
            forall j :: 0 <= j < |more| ==> more[j] == Min(config.interval * (j + 1), 30000)
  {
    hide Min;
  }

  lemma EventExplained(c: Client, config: Config, init: seq<Event>, e: Event)
    requires Enabled(c, e) && Explained(c, config, init)
    ensures Explained(After(c, e), config, init + [e])
    ensures !c.shuttingDown ==> (After(c, e).exited <==> e.Closed? && Exhausted(config, FailuresSinceOpen(init)))
    ensures c.shuttingDown ==> !After(c, e).exited
  {
    DisconnectedSnoc(init, e);
    CountsSnoc(init, e);
    if e.Closed? && !c.shuttingDown {
      DelayAfter(config, c.delays);
    }
    hide Disconnected, FailuresSinceOpen, Reconnects, Min, Delay;
  }

  /** In every run the client's state is explained by what happened. */
  lemma {:induction false} StateExplained(config: Config, events: seq<Event>)
    requires IsRun(Start(config), events)
    ensures Explained(Final(Start(config), events), config, events)
  {
    if |events| > 0 {
      var init, last := events[..|events| - 1], events[|events| - 1];
      Snoc(Start(config), events);
      StateExplained(config, init);
      assert events == init + [last];
      hide *;
      EventExplained(Final(Start(config), init), config, init, last);
    }
  }

  /** In every run the client gives up exactly at the closing that finds as many failures since it was last
      open as are allowed. */
  lemma GivesUpExactly(config: Config, events: seq<Event>, e: Event)
    requires IsRun(Start(config), events + [e]) && !Disconnected(events)
    ensures Final(Start(config), events + [e]).exited <==> e.Closed? && config.maxAttempts == Some(FailuresSinceOpen(events))
  {
    assert (events + [e])[..|events|] == events;
    Snoc(Start(config), events + [e]);
    var c := Final(Start(config), events);
    StateExplained(config, events);
    EventExplained(c, config, events, e);
    hide Final, IsRun, Start, FailuresSinceOpen;
  }

  // ----- The client's methods -----

  class WebSocketClient {
    const config: Config
    var ws: Option<nat>
    var reconnectAttempts: nat
    var isShuttingDown: bool
    ghost var exited: bool
    ghost var live: set<nat>
    var created: nat
    ghost var timers: nat
    ghost var delays: seq<nat>

    ghost function Abs(): Client
      reads this
    {
      Client(config, ws, reconnectAttempts, isShuttingDown, exited, live, created, timers, delays)
    }

    /** An interval of 0 means one second; a maximum of 0 means no maximum. */
    constructor (reconnectInterval: nat, maxReconnectAttempts: nat)
      ensures Abs() == Fresh(Config(if reconnectInterval == 0 then 1000 else reconnectInterval,
                                    if maxReconnectAttempts == 0 then None else Some(maxReconnectAttempts)))
    {
      config := Config(if reconnectInterval == 0 then 1000 else reconnectInterval,
                       if maxReconnectAttempts == 0 then None else Some(maxReconnectAttempts));
      ws, reconnectAttempts, isShuttingDown, created := None, 0, false, 0;
      exited, live, timers, delays := false, {}, 0, [];
    }

    method ConnectNow()
      modifies this
      ensures Abs() == Connect(old(Abs()))
    {
      if isShuttingDown {
        return;
      }
      ws := Some(created);
      live := live + {created};
      created := created + 1;
    }

    method DisconnectNow()
      requires !exited
      modifies this
      ensures Abs() == After(old(Abs()), Disconnect)
    {
      isShuttingDown := true;
      if ws.Some? {
        ws := None;
      }
    }

    method HandleOpen(k: nat)
      requires Enabled(Abs(), Opened(k))
      modifies this
      ensures Abs() == After(old(Abs()), Opened(k))
      ensures reconnectAttempts == 0 && delays == []
    {
      reconnectAttempts := 0;
      delays := [];
    }

    method HandleClose(k: nat)
      requires Enabled(Abs(), Closed(k))
      modifies this
      ensures Abs() == After(old(Abs()), Closed(k))
    {
      live := live - {k};
      if isShuttingDown {
        return;
      }
      ScheduleReconnectNow();
    }

    method ScheduleReconnectNow()
      modifies this
      ensures Abs() == ScheduleReconnect(old(Abs()))
    {
      if isShuttingDown {
        return;
      }
      if config.maxAttempts.Some? && reconnectAttempts >= config.maxAttempts.value {
        exited := true;
        return;
      }
      reconnectAttempts := reconnectAttempts + 1;
      var delay := Min(config.interval * reconnectAttempts, MAX_DELAY);
      timers := timers + 1;
      delays := delays + [delay];
    }

    method ReconnectTimer()
      requires Enabled(Abs(), TimerFires)
      modifies this
      ensures Abs() == After(old(Abs()), TimerFires)
    {
      timers := timers - 1;
      ConnectNow();
    }
  }
}
