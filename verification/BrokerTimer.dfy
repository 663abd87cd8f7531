// The clock side of start_brokering: when the broker polls, and when it sends heartbeats.

module BrokerTimer {
  import opened Bytes
  import opened Mdp

  // One turn of the loop: what poll brought, and the clock readings in the order they are
  // taken: by the handler, by its purge, after the message, by the heartbeat purge, after it.
  datatype Round = Round(incoming: Option<Message>, now: int, clock: int, seen: int, beat: int, after: int)

  datatype Timer = Timer(now: int, heartbeatAt: int)

  function Start(t0: int): Timer {
    Timer(t0, t0 + HEARTBEAT_INTERVAL)
  }

  function PollTimeout(t: Timer): int {
    if t.heartbeatAt - t.now < 0 then 0 else t.heartbeatAt - t.now
  }

  predicate Beats(t: Timer, r: Round) {
    r.seen >= t.heartbeatAt
  }

  function Turn(t: Timer, r: Round): Timer {
    if Beats(t, r) then Timer(r.after, t.heartbeatAt + HEARTBEAT_INTERVAL) else t.(now := r.seen)
  }

  // The timer after n turns.
  function Turns(t: Timer, script: seq<Round>, n: nat): Timer
    requires n <= |script|
  {
    if n == 0 then t else Turn(Turns(t, script, n - 1), script[n - 1])
  }

  // How many of the first n turns sent heartbeats.
  function BeatCount(t: Timer, script: seq<Round>, n: nat): nat
    requires n <= |script|
  {
    if n == 0 then 0
    else BeatCount(t, script, n - 1) + (if Beats(Turns(t, script, n - 1), script[n - 1]) then 1 else 0)
  }

  // The last reading of the clock before turn i.
  function Before(t0: int, script: seq<Round>, i: nat): int
    requires i <= |script|
  {
    if i == 0 then t0 else script[i - 1].after
  }

  // The clock does not run backwards.
  ghost predicate Monotone(t0: int, script: seq<Round>) {
    forall i: nat :: i < |script| ==>
      Before(t0, script, i) <= script[i].now <= script[i].clock <= script[i].seen <= script[i].beat <= script[i].after
  }

  // While the clock only advances, heartbeat_at stays on the grid t0 + 2500 (k + 1) after k
  // heartbeat rounds, every poll waits between 0 and 2500 ms, and there has been at most one
  // round per 2500 ms gone by.
  lemma {:induction false} HeartbeatGrid(t0: int, script: seq<Round>, n: nat)
    requires Monotone(t0, script) && n <= |script|
    ensures var t, k := Turns(Start(t0), script, n), BeatCount(Start(t0), script, n);
            && t.heartbeatAt == t0 + HEARTBEAT_INTERVAL * (k + 1)
            && 0 <= PollTimeout(t) <= HEARTBEAT_INTERVAL
            && k <= (t.now - t0) / HEARTBEAT_INTERVAL
            && t.now <= (if n == 0 then t0 else script[n - 1].after)
  {
    if n > 0 {
      HeartbeatGrid(t0, script, n - 1);
      var t, k := Turns(Start(t0), script, n), BeatCount(Start(t0), script, n);
      assert t0 + HEARTBEAT_INTERVAL * k <= t.now;
    }
  }

  // The timeout of the next poll counts from the last reading of the clock: the one after the
  // round, if the turn had one.
  lemma TimeoutCountsFromNow(t0: int, script: seq<Round>, n: nat)
    requires Monotone(t0, script) && n < |script|
    ensures var k, k1 := BeatCount(Start(t0), script, n), BeatCount(Start(t0), script, n + 1);
            var now := if k1 > k then script[n].after else script[n].seen;
            var due := t0 + 2500 * (k1 + 1);
            PollTimeout(Turns(Start(t0), script, n + 1)) == if due > now then due - now else 0
  {
    HeartbeatGrid(t0, script, n + 1);
  }

  // A poll that lasts its whole timeout, and none that ends sooner, ends with a round due.
  lemma PollEndsWithTheRound(t: Timer, r: Round)
    requires r.seen >= t.now
    ensures Beats(t, r) <==> r.seen - t.now >= PollTimeout(t)
  {
  }

  // When the loop last looked whether a round was due, before turn i.
  function Looked(t0: int, script: seq<Round>, i: nat): int
    requires i <= |script|
  {
    if i == 0 then t0 else script[i - 1].seen
  }

  // It looks at least once per interval.
  ghost predicate Prompt(t0: int, script: seq<Round>) {
    forall i: nat :: i < |script| ==> script[i].seen - Looked(t0, script, i) <= HEARTBEAT_INTERVAL
  }

  // Whatever the readings, turn n + 1 has a round exactly if the next point of the grid is
  // past by then.
  lemma RoundsWhenDue(t0: int, script: seq<Round>, n: nat)
    requires Monotone(t0, script) && n < |script|
    ensures BeatCount(Start(t0), script, n + 1)
            == BeatCount(Start(t0), script, n)
               + (if script[n].seen >= t0 + 2500 * (BeatCount(Start(t0), script, n) + 1) then 1 else 0)
  {
    HeartbeatGrid(t0, script, n);
  }

  // If it looks that often, no round is missed: there has been one for each interval gone by.
  lemma {:induction false} NoRoundIsMissed(t0: int, script: seq<Round>, n: nat)
    requires Monotone(t0, script) && Prompt(t0, script) && 0 < n <= |script|
    ensures BeatCount(Start(t0), script, n) == (script[n - 1].seen - t0) / 2500
  {
    RoundsWhenDue(t0, script, n - 1);
    if n > 1 {
      NoRoundIsMissed(t0, script, n - 1);
    }
    assert Before(t0, script, n - 1) <= script[n - 1].now;
    assert n > 1 ==> script[n - 2].seen <= script[n - 2].after;
    OneMore(Looked(t0, script, n - 1) - t0, script[n - 1].seen - t0);
  }

  lemma OneMore(x: int, y: int)
    requires x <= y <= x + 2500
    ensures y / 2500 == x / 2500 + (if y >= 2500 * (x / 2500 + 1) then 1 else 0)
  {
  }
}
