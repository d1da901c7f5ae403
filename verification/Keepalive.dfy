/** The poll / wait / pong / ping / telemetry loop of the main firmware against the keep-alive it
    promises the broker (firmware/src/main.c, main; section 3.1.2.10 of MQTT 3.1.1). */
module Keepalive {
  import opened Numbers

  const KEEPALIVE_MS := 30000
  const PING_IDLE_MS := 20000
  const TELEMETRY_INTERVAL_MS := 10000

  type PollMs = x: int | 0 <= x <= 500
  type WaitMs = x: int | 0 <= x <= 1000
  type CommandMs = x: int | 0 <= x <= 5000
  type SleepMs = x: int | 0 <= x <= 100

  datatype Poll = Readable | Quiet | PollFailed

  datatype Wait = MessageOrTimeout(pingCommand: bool) | WaitFailed

  /** Everything the environment decides in one turn of the loop: how long each call takes, at
      most its configured timeout, and whether it succeeds. */
  datatype Turn = Turn(
    poll: Poll, pollMs: PollMs, wait: Wait, waitMs: WaitMs,
    pongMs: CommandMs, pongOk: bool, pingMs: CommandMs, pingOk: bool,
    publishMs: CommandMs, publishOk: bool, sleepMs: SleepMs)

  datatype Kind = Subscribe | Pong | PingRequest | Telemetry

  /** A control packet: the call that sends it runs from `start` to `finish`. */
  datatype Packet = Packet(kind: Kind, start: int, finish: int)

  predicate OnTime(packets: seq<Packet>) {
    forall k :: 0 <= k < |packets| - 1 ==> packets[k + 1].start - packets[k].start < 16600
  }

  predicate NoPing(packets: seq<Packet>) {
    forall k :: 0 <= k < |packets| ==> packets[k].kind != PingRequest
  }

  /** Finish of the last telemetry, or of the subscription that started the first interval. */
  function LastTelemetry(packets: seq<Packet>): int
    requires packets != []
  {
    var last := packets[|packets| - 1];
    if last.kind == Telemetry || |packets| == 1 then last.finish
    else LastTelemetry(packets[..|packets| - 1])
  }

  function TelemetryCount(packets: seq<Packet>): nat {
    if packets == [] then 0
    else TelemetryCount(packets[..|packets| - 1]) + if packets[|packets| - 1].kind == Telemetry then 1 else 0
  }

  predicate PacedAt(before: seq<Packet>, p: Packet)
    requires before != []
  {
    p.kind == Telemetry ==>
      TELEMETRY_INTERVAL_MS <= p.start - LastTelemetry(before) < TELEMETRY_INTERVAL_MS + 6600
  }

  predicate Paced(packets: seq<Packet>) {
    forall k :: 0 < k < |packets| ==> PacedAt(packets[..k], packets[k])
  }

  function LastOf(packets: seq<Packet>): Packet
    requires packets != []
  {
    packets[|packets| - 1]
  }

  /** Built packet by packet from a subscription: no ping, each soon enough after the one before. */
  predicate Good(packets: seq<Packet>) {
    packets != [] &&
    var p := LastOf(packets);
    if |packets| == 1 then p.kind == Subscribe
    else
      var before := packets[..|packets| - 1];
      Good(before) && p.kind != PingRequest && p.start - LastOf(before).start < 16600 && PacedAt(before, p)
  }

  lemma GoodSnoc(packets: seq<Packet>, p: Packet)
    requires Good(packets) && p.kind != PingRequest && PacedAt(packets, p)
    requires p.start - LastOf(packets).start < 16600
    ensures Good(packets + [p]) && LastOf(packets + [p]) == p && (packets + [p])[0] == packets[0]
    ensures LastTelemetry(packets + [p]) == if p.kind == Telemetry then p.finish else LastTelemetry(packets)
    ensures TelemetryCount(packets + [p]) == TelemetryCount(packets) + if p.kind == Telemetry then 1 else 0
  {
    assert (packets + [p])[..|packets|] == packets;
  }

  lemma {:induction false} GoodMeans(packets: seq<Packet>)
    requires Good(packets)
    ensures NoPing(packets) && OnTime(packets) && Paced(packets)
  {
    if |packets| <= 1 {
    } else {
      var before := packets[..|packets| - 1];
      GoodMeans(before);
      assert forall k :: 0 < k < |before| ==> packets[..k] == before[..k] && packets[k] == before[k];
    }
  }

  // ----- the loop -----

  /** One connection: packets sent so far, when the last call that sent one ended, when telemetry is
      due, the clock, and whether the loop still runs. `maxIdle` is the longest idle time a ping
      check has seen. */
  datatype Conn = Conn(
    packets: seq<Packet>, lastTx: int, nextTelemetry: int, now: int,
    pingRequested: bool, maxIdle: int, counter: nat, open: bool)

  function Subscribed(start: int, subscribeMs: CommandMs, setupMs: SleepMs, pingPending: bool): Conn {
    var done := start + subscribeMs;
    Conn([Packet(Subscribe, start, done)], done + setupMs, done + TELEMETRY_INTERVAL_MS, done + setupMs, pingPending, 0, 0, true)
  }

  function Polled(c: Conn, t: Turn): Conn {
    var polled := c.(now := c.now + t.pollMs);
    if t.poll == PollFailed then polled.(open := false)
    else if t.poll == Quiet then polled
    else if t.wait == WaitFailed then polled.(now := polled.now + t.waitMs, open := false)
    else polled.(now := polled.now + t.waitMs, pingRequested := c.pingRequested || t.wait.pingCommand)
  }

  function Answered(c: Conn, t: Turn): Conn {
    if !c.open || !c.pingRequested then c
    else
      var after := c.(now := c.now + t.pongMs, pingRequested := false);
      if !t.pongOk then after.(open := false)
      else after.(packets := c.packets + [Packet(Pong, c.now, after.now)], lastTx := after.now)
  }

  function Pinged(c: Conn, t: Turn): Conn {
    if !c.open then c
    else
      var seen := c.(maxIdle := Max(c.maxIdle, c.now - c.lastTx));
      if c.now - c.lastTx < PING_IDLE_MS then seen
      else
        var after := seen.(now := c.now + t.pingMs);
        if !t.pingOk then after.(open := false)
        else after.(packets := c.packets + [Packet(PingRequest, c.now, after.now)], lastTx := after.now)
  }

  function Reported(c: Conn, t: Turn): Conn {
    if !c.open || c.now < c.nextTelemetry then c
    else
      var after := c.(now := c.now + t.publishMs, counter := c.counter + 1);
      if !t.publishOk then after.(open := false)
      else after.(packets := c.packets + [Packet(Telemetry, c.now, after.now)],
                  nextTelemetry := after.now + TELEMETRY_INTERVAL_MS, lastTx := after.now)
  }

  function Slept(c: Conn, t: Turn): Conn { if c.open then c.(now := c.now + t.sleepMs) else c }

  function Step(c: Conn, t: Turn): Conn {
    if c.open then Slept(Reported(Pinged(Answered(Polled(c, t), t), t), t), t) else c
  }

  /** The connection after `n` turns. */
  function Run(start: Conn, env: nat -> Turn, n: nat): Conn {
    if n == 0 then start else Step(Run(start, env, n - 1), env(n - 1))
  }

  /** What holds between turns; inside a turn telemetry may be up to `slack` overdue. */
  predicate Timely(c: Conn, slack: int) {
    && Good(c.packets) && c.maxIdle < 11600
    && c.now - LastOf(c.packets).start < KEEPALIVE_MS
    && TelemetryCount(c.packets) <= c.counter <= TelemetryCount(c.packets) + 1
    && (c.open ==>
          && LastOf(c.packets).finish <= LastOf(c.packets).start + 5000
          && c.nextTelemetry <= c.lastTx + TELEMETRY_INTERVAL_MS
          && c.nextTelemetry <= LastOf(c.packets).finish + TELEMETRY_INTERVAL_MS
          && c.nextTelemetry == LastTelemetry(c.packets) + TELEMETRY_INTERVAL_MS
          && c.lastTx <= c.now < c.nextTelemetry + slack && c.counter == TelemetryCount(c.packets))
  }

  lemma PolledIsTimely(c: Conn, t: Turn)
    requires c.open && Timely(c, 100)
    ensures Timely(Polled(c, t), 1600)
  {}

  /** Idle time and spacing when the ping check comes. */
  predicate NotIdle(c: Conn) {
    c.open ==> c.packets != [] && c.now - c.lastTx < 11600 && c.now - LastOf(c.packets).start < 16600
  }

  lemma AnsweredIsTimely(c: Conn, t: Turn)
    requires Timely(c, 1600)
    ensures Timely(Answered(c, t), 6600) && NotIdle(Answered(c, t))
  {
    if c.open && c.pingRequested && t.pongOk {
      GoodSnoc(c.packets, Packet(Pong, c.now, c.now + t.pongMs));
    }
  }

  lemma PingedIsTimely(c: Conn, t: Turn)
    requires Timely(c, 6600) && NotIdle(c)
    ensures Timely(Pinged(c, t), 6600) && NotIdle(Pinged(c, t)) && Pinged(c, t).packets == c.packets
  {}

  lemma ReportedIsTimely(c: Conn, t: Turn)
    requires Timely(c, 6600) && NotIdle(c)
    ensures Timely(Reported(c, t), 0)
  {
    if c.open && c.now >= c.nextTelemetry && t.publishOk {
      GoodSnoc(c.packets, Packet(Telemetry, c.now, c.now + t.publishMs));
    }
  }

  lemma StepKeepsTimely(c: Conn, t: Turn)
    requires Timely(c, 100)
    ensures Timely(Step(c, t), 100)
  {
    if c.open {
      var polled := Polled(c, t);
      PolledIsTimely(c, t);
      AnsweredIsTimely(polled, t);
      PingedIsTimely(Answered(polled, t), t);
      ReportedIsTimely(Pinged(Answered(polled, t), t), t);
    }
  }

  lemma {:induction false} RunIsTimely(start: Conn, env: nat -> Turn, n: nat)
    requires Timely(start, 100)
    ensures Timely(Run(start, env, n), 100)
  {
    if n == 0 {
    } else {
      RunIsTimely(start, env, n - 1);
      StepKeepsTimely(Run(start, env, n - 1), env(n - 1));
    }
  }

  /** Over every run of the loop: the idle time never reaches 11.6 s, so no ping is ever sent; packets
      start less than 16.6 s apart and silence stays under the keep-alive; telemetry starts 10 to
      16.6 s after the one before it finished; the counter counts every telemetry tried. */
  lemma KeepsAlive(start: int, subscribeMs: CommandMs, setupMs: SleepMs, pingPending: bool, env: nat -> Turn, n: nat)
    ensures
      var c := Run(Subscribed(start, subscribeMs, setupMs, pingPending), env, n);
      && c.packets != [] && c.maxIdle < 11600
      && NoPing(c.packets) && OnTime(c.packets) && Paced(c.packets)
      && c.now - LastOf(c.packets).start < KEEPALIVE_MS
      && TelemetryCount(c.packets) <= c.counter <= TelemetryCount(c.packets) + 1
  {
    var first := Subscribed(start, subscribeMs, setupMs, pingPending);
    assert first.packets[..0] == [] && TelemetryCount(first.packets) == TelemetryCount([]) + 0;
    RunIsTimely(first, env, n);
    GoodMeans(Run(first, env, n).packets);
  }

  // ----- what one turn does, and that every ping command is answered -----

  /** The turn reads a ping command. */
  predicate Commands(t: Turn) { t.poll == Readable && t.wait == MessageOrTimeout(true) }

  predicate HearingFails(t: Turn) { t.poll == PollFailed || (t.poll == Readable && t.wait == WaitFailed) }

  /** The clock when the poll and the wait of a turn end. */
  function HeardAt(c: Conn, t: Turn): int { c.now + t.pollMs + if t.poll == Readable then t.waitMs else 0 }

  /** The connection right after a turn that heard all and answered what it was asked. */
  function AfterAnswer(c: Conn, t: Turn): Conn {
    var heard := HeardAt(c, t);
    if c.pingRequested || Commands(t) then
      var answered := heard + t.pongMs;
      c.(packets := c.packets + [Packet(Pong, heard, answered)], lastTx := answered, now := answered, pingRequested := false)
    else c.(now := heard)
  }

  /** The connection after telemetry that is due, and the sleep. */
  function AfterReport(c: Conn, t: Turn): Conn {
    if c.now >= c.nextTelemetry then
      var done := c.now + t.publishMs;
      c.(packets := c.packets + [Packet(Telemetry, c.now, done)], lastTx := done,
         nextTelemetry := done + TELEMETRY_INTERVAL_MS, counter := c.counter + 1, now := done + t.sleepMs)
    else c.(now := c.now + t.sleepMs)
  }

  /** Everything one turn does to a connection that is open, the idle time seen aside. */
  predicate TurnDone(c: Conn, t: Turn, after: Conn) {
    var answered := AfterAnswer(c, t);
    var asked := c.pingRequested || Commands(t);
    && (after.open <==> !HearingFails(t) && (asked ==> t.pongOk) && (answered.now >= c.nextTelemetry ==> t.publishOk))
    && (after.open ==> after == AfterReport(answered, t).(maxIdle := after.maxIdle))
    && (HearingFails(t) || (asked && !t.pongOk) ==> after.packets == c.packets)
  }

  /** Too short an idle time at the start of a turn for a ping within it. */
  predicate Fresh(c: Conn) { c.open && c.now - c.lastTx < 10100 }

  lemma HeardAndAnswered(c: Conn, t: Turn)
    requires Fresh(c)
    ensures
      var answered := Answered(Polled(c, t), t);
      var asked := c.pingRequested || Commands(t);
      && (answered.open <==> !HearingFails(t) && (asked ==> t.pongOk))
      && (if answered.open then answered == AfterAnswer(c, t) else answered.packets == c.packets)
      && (answered.open ==> answered.now - answered.lastTx < PING_IDLE_MS)
  {}

  lemma ReportedAndSlept(c: Conn, t: Turn)
    requires c.open && c.now - c.lastTx < PING_IDLE_MS
    ensures
      var after := Slept(Reported(Pinged(c, t), t), t);
      && (after.open <==> (c.now >= c.nextTelemetry ==> t.publishOk))
      && (after.open ==> after == AfterReport(c, t).(maxIdle := after.maxIdle))
  {}

  lemma StepDoesTurn(c: Conn, t: Turn)
    requires Fresh(c)
    ensures TurnDone(c, t, Step(c, t))
  {
    HeardAndAnswered(c, t);
    var answered := Answered(Polled(c, t), t);
    if answered.open {
      ReportedAndSlept(answered, t);
    }
  }

  function PongsOf(packets: seq<Packet>): seq<Packet> {
    if packets == [] then []
    else
      var last := packets[|packets| - 1];
      PongsOf(packets[..|packets| - 1]) + if last.kind == Pong then [last] else []
  }

  lemma PongsSnoc(packets: seq<Packet>, p: Packet)
    ensures PongsOf(packets + [p]) == PongsOf(packets) + if p.kind == Pong then [p] else []
  {
    assert (packets + [p])[..|packets|] == packets;
  }

  /** A turn has a command to answer: it reads one, or is the first and found one pending. */
  predicate Asked(env: nat -> Turn, k: nat, pending: bool) { (k == 0 && pending) || Commands(env(k)) }

  /** The answers owed for the first `n` turns. */
  function PongsDue(first: Conn, env: nat -> Turn, n: nat): seq<Packet> {
    if n == 0 then []
    else PongsDue(first, env, n - 1) + Owed(Run(first, env, n - 1), env(n - 1), Asked(env, n - 1, first.pingRequested))
  }

  /** The answer owed for a turn that starts with `c`. */
  function Owed(c: Conn, t: Turn, asked: bool): seq<Packet> {
    if asked then [Packet(Pong, HeardAt(c, t), HeardAt(c, t) + t.pongMs)] else []
  }

  /** How many of the first `n` turns had a command to answer. */
  function AskedTurns(env: nat -> Turn, n: nat, pending: bool): nat {
    if n == 0 then 0 else AskedTurns(env, n - 1, pending) + if Asked(env, n - 1, pending) then 1 else 0
  }

  lemma {:induction false} OneAnswerEach(first: Conn, env: nat -> Turn, n: nat)
    ensures |PongsDue(first, env, n)| == AskedTurns(env, n, first.pingRequested)
  {
    if n == 0 {
    } else {
      OneAnswerEach(first, env, n - 1);
    }
  }

  lemma PongsAfterAnswer(c: Conn, t: Turn)
    ensures PongsOf(AfterAnswer(c, t).packets) == PongsOf(c.packets) + Owed(c, t, c.pingRequested || Commands(t))
    ensures !AfterAnswer(c, t).pingRequested
  {
    PongsSnoc(c.packets, Packet(Pong, HeardAt(c, t), HeardAt(c, t) + t.pongMs));
  }

  lemma PongsAfterReport(c: Conn, t: Turn)
    ensures PongsOf(AfterReport(c, t).packets) == PongsOf(c.packets) && AfterReport(c, t).pingRequested == c.pingRequested
  {
    PongsSnoc(c.packets, Packet(Telemetry, c.now, c.now + t.publishMs));
  }

  lemma TurnAnswers(c: Conn, t: Turn)
    requires Timely(c, 100) && Step(c, t).open
    ensures c.open && !Step(c, t).pingRequested
    ensures PongsOf(Step(c, t).packets) == PongsOf(c.packets) + Owed(c, t, c.pingRequested || Commands(t))
  {
    TimelyIsFresh(c);
    StepDoesTurn(c, t);
    PongsAfterAnswer(c, t);
    PongsAfterReport(AfterAnswer(c, t), t);
  }

  lemma TimelyIsFresh(c: Conn)
    requires Timely(c, 100)
    ensures c.open ==> Fresh(c)
  {}

  /** While the connection is open every command has been answered, each right after the turn heard
      it and none twice, and no command is pending between turns. */
  lemma {:induction false} EveryPingIsAnswered(first: Conn, env: nat -> Turn, n: nat)
    requires Timely(first, 100) && PongsOf(first.packets) == [] && Run(first, env, n).open
    ensures PongsOf(Run(first, env, n).packets) == PongsDue(first, env, n)
    ensures n > 0 ==> !Run(first, env, n).pingRequested
  {
    if n == 0 {
    } else {
      var before := Run(first, env, n - 1);
      RunIsTimely(first, env, n - 1);
      TurnAnswers(before, env(n - 1));
      EveryPingIsAnswered(first, env, n - 1);
    }
  }

  /** The same for a connection from its subscription on; and each further turn does exactly what
      its environment asks: a failed call closes it, a failed answer without a packet. */
  lemma RunAnswersPings(start: int, subscribeMs: CommandMs, setupMs: SleepMs, pingPending: bool, env: nat -> Turn, n: nat)
    requires Run(Subscribed(start, subscribeMs, setupMs, pingPending), env, n).open
    ensures
      var first := Subscribed(start, subscribeMs, setupMs, pingPending);
      var c := Run(first, env, n);
      && PongsOf(c.packets) == PongsDue(first, env, n) && (n > 0 ==> !c.pingRequested)
      && |PongsOf(c.packets)| == AskedTurns(env, n, pingPending)
      && (c.pingRequested || Commands(env(n)) <==> Asked(env, n, pingPending))
      && TurnDone(c, env(n), Run(first, env, n + 1))
  {
    var first := Subscribed(start, subscribeMs, setupMs, pingPending);
    assert first.packets[..0] == [] && TelemetryCount(first.packets) == TelemetryCount([]) + 0;
    assert PongsOf(first.packets) == PongsOf([]) + [];
    EveryPingIsAnswered(first, env, n);
    OneAnswerEach(first, env, n);
    RunIsTimely(first, env, n);
    TimelyIsFresh(Run(first, env, n));
    StepDoesTurn(Run(first, env, n), env(n));
  }

  lemma {:induction false} ClosedStays(start: Conn, env: nat -> Turn, k: nat, n: nat)
    requires k <= n && !Run(start, env, k).open
    ensures Run(start, env, n) == Run(start, env, k)
  {
    if n == k {
    } else {
      ClosedStays(start, env, k, n - 1);
    }
  }

  method PollSocket(before: Conn, turn: Turn) returns (c: Conn)
    ensures c == Polled(before, turn)
  {
    c := before.(now := before.now + turn.pollMs);
    if turn.poll == PollFailed {
      return c.(open := false);
    }
    if turn.poll == Readable {
      c := c.(now := c.now + turn.waitMs);
      if turn.wait == WaitFailed {
        return c.(open := false);
      }
      c := c.(pingRequested := c.pingRequested || turn.wait.pingCommand);
    }
  }

  method AnswerPing(before: Conn, turn: Turn) returns (c: Conn)
    requires before.open
    ensures c == Answered(before, turn)
  {
    c := before;
    if c.pingRequested {
      c := c.(pingRequested := false, now := before.now + turn.pongMs);
      if !turn.pongOk {
        return c.(open := false);
      }
      c := c.(packets := c.packets + [Packet(Pong, before.now, c.now)], lastTx := c.now);
    }
  }

  method PingWhenIdle(before: Conn, turn: Turn) returns (c: Conn)
    requires before.open
    ensures c == Pinged(before, turn)
  {
    var idle := before.now - before.lastTx;
    c := if idle > before.maxIdle then before.(maxIdle := idle) else before;
    if idle >= PING_IDLE_MS {
      c := c.(now := before.now + turn.pingMs);
      if !turn.pingOk {
        return c.(open := false);
      }
      c := c.(packets := c.packets + [Packet(PingRequest, before.now, c.now)], lastTx := c.now);
    }
  }

  method ReportWhenDue(before: Conn, turn: Turn) returns (c: Conn)
    requires before.open
    ensures c == Reported(before, turn)
  {
    c := before;
    if c.now >= c.nextTelemetry {
      c := c.(now := before.now + turn.publishMs, counter := c.counter + 1);
      if !turn.publishOk {
        return c.(open := false);
      }
      c := c.(packets := c.packets + [Packet(Telemetry, before.now, c.now)],
              nextTelemetry := c.now + TELEMETRY_INTERVAL_MS, lastTx := c.now);
    }
  }

  /** One turn of the inner loop of main, up to the call that fails. */
  method RunTurn(before: Conn, turn: Turn) returns (c: Conn)
    requires before.open
    ensures c == Step(before, turn)
  {
    c := PollSocket(before, turn);
    if c.open {
      c := AnswerPing(c, turn);
    }
    if c.open {
      c := PingWhenIdle(c, turn);
    }
    if c.open {
      c := ReportWhenDue(c, turn);
    }
    if c.open {
      c := c.(now := c.now + turn.sleepMs);
    }
  }

  /** The inner loop up to any number `turns` of turns; it is left when a call fails. */
  method RunConnection(start: int, subscribeMs: CommandMs, setupMs: SleepMs,
                       pingPending: bool, env: nat -> Turn, turns: nat)
    returns (c: Conn)
    ensures c == Run(Subscribed(start, subscribeMs, setupMs, pingPending), env, turns)
    ensures c.open ==> PongsOf(c.packets) == PongsDue(Subscribed(start, subscribeMs, setupMs, pingPending), env, turns)
  {
    c := Subscribed(start, subscribeMs, setupMs, pingPending);
    ghost var first := c;
    for k := 0 to turns
      invariant c.open && c == Run(first, env, k)
    {
      c := RunTurn(c, env(k));
      if !c.open {
        ClosedStays(first, env, k + 1, turns);
        return;
      }
    }
    RunAnswersPings(start, subscribeMs, setupMs, pingPending, env, turns);
  }
}
