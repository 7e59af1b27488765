/** Heartbeat timing (rfrp_client/src/run_proxy.rs:27-33, 165-202;
    rfrp_server/src/run_proxy.rs:32, 76-95, 141-148): a timed model of the forwarding phase.
    Time is real; the bounds say how late things may be, not how early. */
module Keepalive {
  import opened Seqs

  const PING_INTERVAL := 30.0
  const KEEPALIVE_TIMEOUT := 90.0

  /** ack: from the server handling the last Register until the client forwards;
      jitter: how late the heartbeat tick may fire; ping, pong: from sending to handling. */
  datatype Bounds = Bounds(ack: real, jitter: real, ping: real, pong: real)

  predicate ValidBounds(b: Bounds) { b.ack >= 0.0 && b.jitter >= 0.0 && b.ping >= 0.0 && b.pong >= 0.0 }

  /** srvLast and cliLast: when each main loop last handled a frame (its timer's start);
      lastTick: the tick the next one is counted from; pings and pongs: when those still under
      way were sent. */
  datatype State = State(now: real, srvLast: real, cliLast: real, lastTick: real, pings: seq<real>, pongs: seq<real>)

  datatype Action = Delay(d: real) | Tick | PingArrives | PongArrives | OtherToServer | OtherToClient

  /** Forwarding begins: the client's timer starts now, the server's with the last Register. */
  predicate Initial(s: State, b: Bounds) {
    s.cliLast == s.now == s.lastTick && s.now - b.ack <= s.srvLast <= s.now && s.pings == [] && s.pongs == []
  }

  predicate Enabled(s: State, a: Action, b: Bounds) {
    match a
    case Delay(d) =>
      && d > 0.0
      && s.now + d <= s.lastTick + PING_INTERVAL + b.jitter
      && (s.pings != [] ==> s.now + d <= s.pings[0] + b.ping)
      && (s.pongs != [] ==> s.now + d <= s.pongs[0] + b.pong)
    case Tick => s.now >= s.lastTick + PING_INTERVAL
    case PingArrives => s.pings != []
    case PongArrives => s.pongs != []
    case OtherToServer => true
    case OtherToClient => true
  }

  /** MissedTickBehavior::Delay counts the next interval from the tick that fired. */
  function Do(s: State, a: Action, b: Bounds): State
    requires Enabled(s, a, b)
  {
    match a
    case Delay(d) => s.(now := s.now + d)
    case Tick => s.(pings := s.pings + [s.now], lastTick := s.now)
    case PingArrives => s.(pings := s.pings[1..], srvLast := s.now, pongs := s.pongs + [s.now])
    case PongArrives => s.(pongs := s.pongs[1..], cliLast := s.now)
    case OtherToServer => s.(srvLast := s.now)
    case OtherToClient => s.(cliLast := s.now)
  }

  function Exec(s: State, run: seq<Action>, b: Bounds): Option<State> {
    if run == [] then Some(s)
    else
      match Exec(s, run[..|run| - 1], b)
      case None => None
      case Some(t) => if Enabled(t, run[|run| - 1], b) then Some(Do(t, run[|run| - 1], b)) else None
  }

  predicate ServerExpired(s: State) { s.now >= s.srvLast + KEEPALIVE_TIMEOUT }

  predicate ClientExpired(s: State) { s.now >= s.cliLast + KEEPALIVE_TIMEOUT }

  /** The latest moment the server can be without the next ping. */
  function PingDue(s: State, b: Bounds): real {
    (if s.pings != [] then s.pings[0] else s.lastTick + PING_INTERVAL + b.jitter) + b.ping
  }

  /** The latest moment the client can be without the next pong. */
  function PongDue(s: State, b: Bounds): real {
    (if s.pongs != [] then s.pongs[0] else PingDue(s, b)) + b.pong
  }

  /** Nothing is overdue, and nothing lies in the future. */
  ghost predicate Timely(s: State, b: Bounds) {
    && s.srvLast <= s.now && s.cliLast <= s.now
    && s.lastTick <= s.now <= s.lastTick + PING_INTERVAL + b.jitter
    && (forall i :: 0 <= i < |s.pings| ==> s.pings[i] <= s.now)
    && (forall i :: 0 <= i < |s.pongs| ==> s.pongs[i] <= s.now)
    && (s.pings != [] ==> s.now <= s.pings[0] + b.ping)
    && (s.pongs != [] ==> s.now <= s.pongs[0] + b.pong)
  }

  ghost predicate ServerInv(s: State, b: Bounds) { PingDue(s, b) < s.srvLast + KEEPALIVE_TIMEOUT }

  ghost predicate ClientInv(s: State, b: Bounds) { PongDue(s, b) < s.cliLast + KEEPALIVE_TIMEOUT }

  predicate ServerSlack(b: Bounds) { b.ack + b.jitter + b.ping < 60.0 }

  predicate ClientSlack(b: Bounds) { b.jitter + b.ping + b.pong < 60.0 }

  /** Messages are under way in the order they were sent. */
  ghost predicate Ordered(q: seq<real>) { forall i, j :: 0 <= i < j < |q| ==> q[i] <= q[j] }

  ghost predicate Base(s: State, b: Bounds) { Timely(s, b) && Ordered(s.pings) && Ordered(s.pongs) }

  lemma BaseStep(s: State, a: Action, b: Bounds)
    requires ValidBounds(b) && Base(s, b) && Enabled(s, a, b)
    ensures Base(Do(s, a, b), b)
  {
  }

  lemma ServerStep(s: State, a: Action, b: Bounds)
    requires ValidBounds(b) && ServerSlack(b) && Base(s, b) && ServerInv(s, b) && Enabled(s, a, b)
    ensures ServerInv(Do(s, a, b), b)
  {
  }

  lemma ClientStep(s: State, a: Action, b: Bounds)
    requires ValidBounds(b) && ClientSlack(b) && Base(s, b) && ClientInv(s, b) && Enabled(s, a, b)
    ensures ClientInv(Do(s, a, b), b)
  {
  }

  lemma {:induction false} RunInv(s: State, run: seq<Action>, b: Bounds)
    requires ValidBounds(b) && Initial(s, b) && Exec(s, run, b).Some?
    ensures var t := Exec(s, run, b).value;
      Base(t, b) && (ServerSlack(b) ==> ServerInv(t, b)) && (ClientSlack(b) ==> ClientInv(t, b))
  {
    if run == [] {
    } else {
      var t, a := Exec(s, run[..|run| - 1], b).value, run[|run| - 1];
      RunInv(s, run[..|run| - 1], b);
      BaseStep(t, a, b);
      if ServerSlack(b) { ServerStep(t, a, b); }
      if ClientSlack(b) { ClientStep(t, a, b); }
    }
  }

  /** The server's timer never expires in a run whose delays leave the slack, and the client's
      does not either if the pongs fit in it too. */
  lemma NeverExpires(s: State, run: seq<Action>, b: Bounds, t: State)
    requires ValidBounds(b) && Initial(s, b) && Exec(s, run, b) == Some(t)
    ensures ServerSlack(b) ==> !ServerExpired(t)
    ensures ClientSlack(b) ==> !ClientExpired(t)
  {
    RunInv(s, run, b);
  }

  /** Timers only move forward. */
  lemma {:induction false} TimersAdvance(s: State, run: seq<Action>, b: Bounds)
    requires s.srvLast <= s.now && s.cliLast <= s.now && Exec(s, run, b).Some?
    ensures var t := Exec(s, run, b).value;
      s.srvLast <= t.srvLast <= t.now && s.cliLast <= t.cliLast <= t.now && s.now <= t.now
  {
    if run == [] {
    } else {
      TimersAdvance(s, run[..|run| - 1], b);
    }
  }

  /** Any frame will do: whatever the bounds, a side that handled one, a heartbeat or not, has not
      expired for the next 90 seconds. */
  lemma AnyFrameResets(s: State, a: Action, more: seq<Action>, b: Bounds)
    requires s.srvLast <= s.now && s.cliLast <= s.now && Enabled(s, a, b)
    requires Exec(Do(s, a, b), more, b).Some?
    ensures var t := Exec(Do(s, a, b), more, b).value;
      && (a.PingArrives? || a.OtherToServer? ==> (t.now < s.now + 90.0 ==> !ServerExpired(t)))
      && (a.PongArrives? || a.OtherToClient? ==> (t.now < s.now + 90.0 ==> !ClientExpired(t)))
  {
    TimersAdvance(Do(s, a, b), more, b);
  }

  /** And nothing but time lets it expire: a side that hears nothing for 90 seconds has expired. */
  lemma {:induction false} SilenceExpires(s: State, more: seq<Action>, b: Bounds)
    requires s.srvLast <= s.now && s.cliLast <= s.now && Exec(s, more, b).Some?
    requires Exec(s, more, b).value.now >= s.now + 90.0
    ensures var t := Exec(s, more, b).value;
      && ((forall x :: 0 <= x < |more| ==> !more[x].PingArrives? && !more[x].OtherToServer?) ==> ServerExpired(t))
      && ((forall x :: 0 <= x < |more| ==> !more[x].PongArrives? && !more[x].OtherToClient?) ==> ClientExpired(t))
  {
    LastStays(s, more, b);
  }

  lemma {:induction false} LastStays(s: State, more: seq<Action>, b: Bounds)
    requires Exec(s, more, b).Some?
    ensures var t := Exec(s, more, b).value;
      && ((forall x :: 0 <= x < |more| ==> !more[x].PingArrives? && !more[x].OtherToServer?) ==> t.srvLast == s.srvLast)
      && ((forall x :: 0 <= x < |more| ==> !more[x].PongArrives? && !more[x].OtherToClient?) ==> t.cliLast == s.cliLast)
  {
    if more == [] {
    } else {
      LastStays(s, more[..|more| - 1], b);
    }
  }

  lemma ExecOne(s: State, run: seq<Action>, a: Action, b: Bounds)
    requires Exec(s, run, b).Some? && Enabled(Exec(s, run, b).value, a, b)
    ensures Exec(s, run + [a], b) == Some(Do(Exec(s, run, b).value, a, b))
  {
    assert (run + [a])[..|run|] == run;
  }

  /** The first message of a queue that is not empty stays the same. */
  ghost predicate SameHead(q: seq<real>, q': seq<real>) {
    (q == [] <==> q' == []) && (q != [] ==> q'[0] == q[0])
  }

  /** Nothing reaches the client or, while a ping is held up, the server. */
  ghost predicate Held(t: State, t': State) {
    && t'.cliLast == t.cliLast && (t.pings != [] ==> t'.srvLast == t.srvLast)
    && SameHead(t.pings, t'.pings) && SameHead(t.pongs, t'.pongs)
  }

  /** A heartbeat; with nothing held up before it, its ping is answered at once. */
  lemma Beat(s: State, run: seq<Action>, b: Bounds) returns (run': seq<Action>)
    requires Exec(s, run, b).Some?
    requires var t := Exec(s, run, b).value; t.now >= t.lastTick + PING_INTERVAL && (t.pings != [] || t.pongs != [])
    ensures Exec(s, run', b).Some?
    ensures var t, t' := Exec(s, run, b).value, Exec(s, run', b).value;
      Held(t, t') && t'.now == t'.lastTick == t.now
  {
    var t := Exec(s, run, b).value;
    ExecOne(s, run, Tick, b);
    run' := run + [Tick];
    if t.pings == [] {
      ExecOne(s, run', PingArrives, b);
      run' := run' + [PingArrives];
    }
  }

  /** Time goes on, heartbeats included, while the oldest ping or pong is held up. */
  lemma {:induction false} Hold(s: State, run: seq<Action>, b: Bounds, until: real) returns (run': seq<Action>)
    requires ValidBounds(b) && Exec(s, run, b).Some?
    requires var t := Exec(s, run, b).value;
      && t.lastTick <= t.now <= until && t.now <= t.lastTick + PING_INTERVAL && (t.pings != [] || t.pongs != [])
      && (t.pings != [] ==> until <= t.pings[0] + b.ping) && (t.pongs != [] ==> until <= t.pongs[0] + b.pong)
    ensures Exec(s, run', b).Some?
    ensures var t, t' := Exec(s, run, b).value, Exec(s, run', b).value;
      Held(t, t') && t'.now == until && t'.lastTick <= until <= t'.lastTick + PING_INTERVAL
    decreases until - Exec(s, run, b).value.lastTick
  {
    hide Exec;
    var t := Exec(s, run, b).value;
    run' := run;
    var stop := if until <= t.lastTick + PING_INTERVAL then until else t.lastTick + PING_INTERVAL;
    if t.now < stop {
      ExecOne(s, run', Delay(stop - t.now), b);
      run' := run' + [Delay(stop - t.now)];
    }
    if stop < until {
      run' := Beat(s, run', b);
      run' := Hold(s, run', b, until);
    }
  }

  /** Every ping under way arrives, now, and is answered. */
  lemma {:induction false} AllPingsArrive(s: State, run: seq<Action>, b: Bounds) returns (run': seq<Action>)
    requires Exec(s, run, b).Some?
    ensures Exec(s, run', b).Some?
    ensures var t, t' := Exec(s, run, b).value, Exec(s, run', b).value;
      && t'.now == t.now && t'.lastTick == t.lastTick && t'.cliLast == t.cliLast && t'.pings == []
      && (t.pongs == [] && t.pings != [] ==> t'.pongs != [] && t'.pongs[0] == t.now)
      && (t.pongs != [] ==> t'.pongs != [] && t'.pongs[0] == t.pongs[0])
    decreases |Exec(s, run, b).value.pings|
  {
    hide Exec;
    run' := run;
    if Exec(s, run, b).value.pings == [] {
    } else {
      ExecOne(s, run, PingArrives, b);
      run' := AllPingsArrive(s, run + [PingArrives], b);
    }
  }

  function Earlier(x: real, y: real): real { if x <= y then x else y }

  /** Half a minute, the jitter, and the first ping is sent; or the 90 seconds are over. */
  lemma FirstPing(b: Bounds, s: State, until: real) returns (run: seq<Action>)
    requires ValidBounds(b) && Initial(s, b) && s.now < until
    ensures Exec(s, run, b).Some?
    ensures var t := Exec(s, run, b).value;
      && t.now == Earlier(until, s.now + PING_INTERVAL + b.jitter) && t.pongs == []
      && t.srvLast == s.srvLast && t.cliLast == s.cliLast && t.lastTick <= t.now
      && (t.now < until ==> t.lastTick == t.now && t.pings == [t.now])
  {
    hide Exec;
    NoStep(s, b);
    var first := Earlier(until, s.now + PING_INTERVAL + b.jitter);
    ExecOne(s, [], Delay(first - s.now), b);
    run := [] + [Delay(first - s.now)];
    if first < until {
      ExecOne(s, run, Tick, b);
      run := run + [Tick];
    }
  }

  /** The server's condition is exact: without that slack, some run lets its timer expire. */
  lemma ServerSlackIsNeeded(b: Bounds) returns (s: State, run: seq<Action>, t: State)
    requires ValidBounds(b) && !ServerSlack(b)
    ensures Initial(s, b) && Exec(s, run, b) == Some(t) && ServerExpired(t)
  {
    hide Exec;
    s := State(b.ack, 0.0, b.ack, b.ack, [], []);
    if b.ack >= KEEPALIVE_TIMEOUT {
      run := [];
      assert Exec(s, run, b) == Some(s) by { NoStep(s, b); }
    } else {
      run := FirstPing(b, s, KEEPALIVE_TIMEOUT);
      if Exec(s, run, b).value.now < KEEPALIVE_TIMEOUT { run := Hold(s, run, b, KEEPALIVE_TIMEOUT); }
    }
    t := Exec(s, run, b).value;
  }

  /** So is the client's: hold up the first ping, then its pong. */
  lemma ClientSlackIsNeeded(b: Bounds) returns (s: State, run: seq<Action>, t: State)
    requires ValidBounds(b) && !ClientSlack(b)
    ensures Initial(s, b) && Exec(s, run, b) == Some(t) && ClientExpired(t)
  {
    hide Exec;
    s := State(0.0, 0.0, 0.0, 0.0, [], []);
    run := FirstPing(b, s, KEEPALIVE_TIMEOUT);
    if Exec(s, run, b).value.now < KEEPALIVE_TIMEOUT {
      run := Hold(s, run, b, Earlier(KEEPALIVE_TIMEOUT, Exec(s, run, b).value.now + b.ping));
      if Exec(s, run, b).value.now < KEEPALIVE_TIMEOUT {
        run := AllPingsArrive(s, run, b);
        run := Hold(s, run, b, KEEPALIVE_TIMEOUT);
      }
    }
    t := Exec(s, run, b).value;
  }

  lemma NoStep(s: State, b: Bounds)
    ensures Exec(s, [], b) == Some(s)
  {
  }
}
