/** The per-sink rate limiter (pkg/sinks/ratelimiter.go). Without a
    configured rate limit every measurement is forwarded at once as a
    one-element batch. With one, measurements queue on a channel, a
    background loop keeps the latest measurement per sensor MAC, and at
    each deadline the collected set is handed on as one batch and the
    timer is re-armed with a jittered wait.

    The goroutine, the channel and the timer become three events applied
    in sequence: `Publish`, `Receive` (the loop takes the head of the
    channel) and `Deadline` (the timer fires). A batch is a map from MAC
    to measurement: Go builds its list by ranging over the map, in an
    order the language leaves unspecified; `BatchList` turns a batch into
    such a list. The random draw `rand.Float64()` is the parameter `draw`. */
module RateLimiter {
  import opened Wrappers
  import opened Backoff
  import opened Api
  import Config

  type Batch = map<string, Measurement>

  /** Every entry sits under its own sensor MAC. */
  predicate KeyedByMac(batch: Batch) {
    forall mac :: mac in batch ==> batch[mac].sensorMac == mac
  }

  datatype Limiter = Limiter(
    config: Option<Config.RateLimit>,
    queue: seq<Measurement>,          // the measurements channel
    pending: Batch,                   // `mset`
    wait: Option<Duration>,           // the armed timer, if the loop runs
    delivered: seq<Batch>)            // every call of the callback, in order

  /** The jittered wait before it is converted to a Duration. */
  function UnroundedWait(max1In: Duration, draw: real): real {
    var d := max1In as real;
    d + (draw * 0.4 - 0.2) * d
  }

  /** nextWaitDuration: `Max1In` moved by up to 20% either way. */
  function NextWaitDuration(max1In: Duration, draw: real): (r: Duration)
    ensures max1In >= 0 && 0.0 <= draw < 1.0 ==>
      var d := max1In as real;
      && 0 <= r
      && r as real <= d + (draw * 0.4 - 0.2) * d < r as real + 1.0
  {
    var d := max1In as real;
    assert max1In >= 0 && 0.0 <= draw < 1.0 ==> (draw * 0.4 - 0.2) * d >= -0.2 * d;
    Trunc(UnroundedWait(max1In, draw))
  }

  /** For a draw in [0, 1) the wait lies in [0.8 * Max1In, 1.2 * Max1In)
      before it is truncated to whole nanoseconds. */
  lemma NextWaitBounds(max1In: Duration, draw: real)
    requires max1In > 0 && 0.0 <= draw < 1.0
    ensures var x := UnroundedWait(max1In, draw);
      && 0.8 * max1In as real <= x < 1.2 * max1In as real
      && 0 <= NextWaitDuration(max1In, draw)
      && NextWaitDuration(max1In, draw) as real <= x < NextWaitDuration(max1In, draw) as real + 1.0
  {
    var d := max1In as real;
    assert (draw * 0.4 - 0.2) * d < 0.2 * d;
    assert (draw * 0.4 - 0.2) * d >= -0.2 * d;
  }

  /** newRateLimiter: the limiter loop, and so the timer, exists only when
      a rate limit is configured. */
  function NewRateLimiter(config: Option<Config.RateLimit>, draw: real): (l: Limiter)
    ensures l.queue == [] && l.pending == map[] && l.delivered == []
    ensures l.wait.None? <==> config.None?
    ensures config.Some? ==> l.wait == Some(NextWaitDuration(config.value.max1In, draw))
  {
    Limiter(config, [], map[], if config.None? then None else Some(NextWaitDuration(config.value.max1In, draw)), [])
  }

  /** Publish: forwarded immediately without a rate limit, queued for the
      loop with one. */
  function Publish(l: Limiter, m: Measurement): (r: Limiter)
    ensures l.config.None? ==> r == l.(delivered := l.delivered + [map[m.sensorMac := m]])
    ensures l.config.Some? ==> r == l.(queue := l.queue + [m])
  {
    if l.config.None? then l.(delivered := l.delivered + [map[m.sensorMac := m]])
    else l.(queue := l.queue + [m])
  }

  /** The loop receives one measurement: it replaces whatever was pending
      for the same MAC and nothing else. */
  function Receive(l: Limiter): (r: Limiter)
    ensures l.config.None? || l.queue == [] ==> r == l
    ensures l.config.Some? && l.queue != [] ==>
      var m := l.queue[0];
      && r.queue == l.queue[1..]
      && r.pending.Keys == l.pending.Keys + {m.sensorMac}
      && r.pending[m.sensorMac] == m
      && (forall mac :: mac in l.pending && mac != m.sensorMac ==> r.pending[mac] == l.pending[mac])
      && r.delivered == l.delivered && r.wait == l.wait && r.config == l.config
  {
    if l.config.None? || l.queue == [] then l
    else
      var m := l.queue[0];
      l.(queue := l.queue[1..], pending := l.pending[m.sensorMac := m])
  }

  /** The timer fires: a non-empty pending set is delivered as one batch
      and cleared; the timer is re-armed either way. */
  function Deadline(l: Limiter, draw: real): (r: Limiter)
    ensures l.config.None? ==> r == l
    ensures l.config.Some? ==>
      && r.pending == map[]
      && r.queue == l.queue && r.config == l.config
      && r.wait == Some(NextWaitDuration(l.config.value.max1In, draw))
      && (|l.pending| == 0 ==> r.delivered == l.delivered)
      && (|l.pending| > 0 ==> r.delivered == l.delivered + [l.pending])
  {
    if l.config.None? then l
    else
      var delivered := if |l.pending| > 0 then l.delivered + [l.pending] else l.delivered;
      l.(pending := map[], wait := Some(NextWaitDuration(l.config.value.max1In, draw)), delivered := delivered)
  }

  datatype Event = PublishEvent(m: Measurement) | ReceiveEvent | DeadlineEvent(draw: real)

  /** One turn of the limiter loop, or one Publish call: the rate limit
      never changes, and at most one batch is handed to the callback. */
  function Step(l: Limiter, e: Event): (r: Limiter)
    ensures r.config == l.config
    ensures |l.delivered| <= |r.delivered| <= |l.delivered| + 1
    ensures r.delivered[..|l.delivered|] == l.delivered
    ensures e.ReceiveEvent? ==> r.delivered == l.delivered
  {
    match e
    case PublishEvent(m) => Publish(l, m)
    case ReceiveEvent => Receive(l)
    case DeadlineEvent(draw) => Deadline(l, draw)
  }

  function Run(l: Limiter, events: seq<Event>): Limiter
    decreases |events|
  {
    if |events| == 0 then l else Run(Step(l, events[0]), events[1..])
  }

  /** What holds of every reachable limiter: pending and delivered sets are
      keyed by MAC, no empty batch is ever delivered, and without a rate
      limit nothing is queued or pending and no timer runs. */
  predicate Valid(l: Limiter) {
    && KeyedByMac(l.pending)
    && (forall i :: 0 <= i < |l.delivered| ==> KeyedByMac(l.delivered[i]) && |l.delivered[i]| > 0)
    && (l.config.None? <==> l.wait.None?)
    && (l.config.None? ==> l.queue == [] && l.pending == map[])
  }

  lemma NewRateLimiterValid(config: Option<Config.RateLimit>, draw: real)
    ensures Valid(NewRateLimiter(config, draw))
  {
  }

  lemma StepValid(l: Limiter, e: Event)
    requires Valid(l)
    ensures Valid(Step(l, e))
  {
  }

  /** Every sequence of events keeps the limiter valid. */
  lemma {:induction false} RunValid(l: Limiter, events: seq<Event>)
    requires Valid(l)
    ensures Valid(Run(l, events))
    decreases |events|
  {
    if |events| > 0 {
      StepValid(l, events[0]);
      RunValid(Step(l, events[0]), events[1..]);
    }
  }

  function Publishes(ms: seq<Measurement>): seq<Event> {
    seq(|ms|, i requires 0 <= i < |ms| => PublishEvent(ms[i]))
  }

  /** Without a rate limit every published measurement is delivered at
      once, alone, in publication order. */
  lemma {:induction false} PassThrough(l: Limiter, ms: seq<Measurement>)
    requires l.config.None?
    ensures var r := Run(l, Publishes(ms));
      && r.config.None? && r.queue == l.queue && r.pending == l.pending && r.wait == l.wait
      && |r.delivered| == |l.delivered| + |ms|
      && r.delivered[..|l.delivered|] == l.delivered
      && forall i :: 0 <= i < |ms| ==> r.delivered[|l.delivered| + i] == map[ms[i].sensorMac := ms[i]]
    decreases |ms|
  {
    if |ms| > 0 {
      var l' := Publish(l, ms[0]);
      assert Publishes(ms)[0] == PublishEvent(ms[0]);
      assert Publishes(ms)[1..] == Publishes(ms[1..]);
      PassThrough(l', ms[1..]);
      var r := Run(l', Publishes(ms[1..]));
      assert r == Run(l, Publishes(ms));
      forall i | 0 <= i < |ms|
        ensures r.delivered[|l.delivered| + i] == map[ms[i].sensorMac := ms[i]]
      {
        if i > 0 {
          assert r.delivered[|l'.delivered| + (i - 1)] == map[ms[1..][i - 1].sensorMac := ms[1..][i - 1]];
        } else {
          assert r.delivered[..|l'.delivered|] == l'.delivered;
          assert r.delivered[|l.delivered|] == r.delivered[..|l'.delivered|][|l.delivered|];
        }
      }
      assert r.delivered[..|l.delivered|] == r.delivered[..|l'.delivered|][..|l.delivered|];
    }
  }

  /** With a rate limit, publishing only queues: nothing is delivered. */
  lemma {:induction false} RateLimitedPublishQueues(l: Limiter, ms: seq<Measurement>)
    requires l.config.Some?
    ensures var r := Run(l, Publishes(ms));
      r == l.(queue := l.queue + ms)
    decreases |ms|
  {
    if |ms| > 0 {
      assert Publishes(ms)[0] == PublishEvent(ms[0]);
      assert Publishes(ms)[1..] == Publishes(ms[1..]);
      RateLimitedPublishQueues(Publish(l, ms[0]), ms[1..]);
      assert l.queue + [ms[0]] + ms[1..] == l.queue + ms;
    }
  }

  // ---------------------------------------------------------------------
  // Coalescing

  /** The last measurement in `ms` from sensor `mac`, if any. */
  function LastFor(ms: seq<Measurement>, mac: string): Option<Measurement>
    decreases |ms|
  {
    if |ms| == 0 then None
    else
      var later := LastFor(ms[1..], mac);
      if later.Some? then later
      else if ms[0].sensorMac == mac then Some(ms[0])
      else None
  }

  /** `LastFor` finds a measurement from that sensor that no later one
      from the same sensor follows, and finds none only when the sensor
      does not occur. */
  lemma {:induction false} LastForSpec(ms: seq<Measurement>, mac: string)
    ensures LastFor(ms, mac).None? <==> forall i :: 0 <= i < |ms| ==> ms[i].sensorMac != mac
    ensures LastFor(ms, mac).Some? ==>
      exists i :: (0 <= i < |ms| && ms[i] == LastFor(ms, mac).value && ms[i].sensorMac == mac
        && forall j :: i < j < |ms| ==> ms[j].sensorMac != mac)
    decreases |ms|
  {
    if |ms| > 0 {
      LastForSpec(ms[1..], mac);
      assert forall j :: 1 <= j < |ms| ==> ms[j] == ms[1..][j - 1];
      if LastFor(ms[1..], mac).Some? {
        var i :| 0 <= i < |ms[1..]| && ms[1..][i] == LastFor(ms[1..], mac).value && ms[1..][i].sensorMac == mac
          && forall j :: i < j < |ms[1..]| ==> ms[1..][j].sensorMac != mac;
        assert ms[i + 1] == LastFor(ms, mac).value;
      } else if ms[0].sensorMac == mac {
        assert ms[0] == LastFor(ms, mac).value;
      }
    }
  }

  function Macs(ms: seq<Measurement>): set<string> {
    set i | 0 <= i < |ms| :: ms[i].sensorMac
  }

  lemma MacsCons(ms: seq<Measurement>)
    requires |ms| > 0
    ensures Macs(ms) == {ms[0].sensorMac} + Macs(ms[1..])
  {
    forall mac | mac in Macs(ms)
      ensures mac in {ms[0].sensorMac} + Macs(ms[1..])
    {
      var i :| 0 <= i < |ms| && ms[i].sensorMac == mac;
      if i > 0 {
        assert ms[1..][i - 1] == ms[i];
      }
    }
    forall mac | mac in Macs(ms[1..])
      ensures mac in Macs(ms)
    {
      var i :| 0 <= i < |ms[1..]| && ms[1..][i].sensorMac == mac;
      assert ms[i + 1] == ms[1..][i];
    }
  }

  /** A sensor has a last measurement exactly when it occurs at all. */
  lemma LastForPresent(ms: seq<Measurement>, mac: string)
    ensures LastFor(ms, mac).Some? <==> mac in Macs(ms)
  {
    LastForSpec(ms, mac);
    if mac in Macs(ms) {
      var i :| 0 <= i < |ms| && ms[i].sensorMac == mac;
    }
  }

  function ReceiveN(l: Limiter, n: nat): Limiter
    decreases n
  {
    if n == 0 then l else ReceiveN(Receive(l), n - 1)
  }

  /** Draining the queue leaves, per MAC, the last queued measurement from
      that sensor, and otherwise what was pending before. */
  lemma {:induction false} DrainCoalesces(l: Limiter)
    requires l.config.Some?
    ensures var r := ReceiveN(l, |l.queue|);
      && r.queue == [] && r.delivered == l.delivered && r.wait == l.wait && r.config == l.config
      && r.pending.Keys == l.pending.Keys + Macs(l.queue)
      && (forall mac :: mac in Macs(l.queue) ==> mac in r.pending && Some(r.pending[mac]) == LastFor(l.queue, mac))
      && (forall mac :: mac in l.pending && mac !in Macs(l.queue) ==> mac in r.pending && r.pending[mac] == l.pending[mac])
    decreases |l.queue|
  {
    var ms := l.queue;
    if |ms| > 0 {
      var l' := Receive(l);
      assert l'.queue == ms[1..];
      DrainCoalesces(l');
      var r := ReceiveN(l', |ms[1..]|);
      assert r == ReceiveN(l, |ms|);
      MacsCons(ms);
      forall mac | mac in Macs(ms)
        ensures mac in r.pending && Some(r.pending[mac]) == LastFor(ms, mac)
      {
        LastForPresent(ms[1..], mac);
      }
    } else {
      assert Macs(ms) == {};
    }
  }

  /** A deadline after the queue has drained delivers exactly one
      measurement per sensor heard since the last delivery: the latest. */
  lemma DrainThenDeadline(l: Limiter, draw: real)
    requires l.config.Some? && l.pending == map[] && l.queue != []
    ensures var r := Deadline(ReceiveN(l, |l.queue|), draw);
      && |r.delivered| == |l.delivered| + 1
      && var batch := r.delivered[|l.delivered|];
      && batch.Keys == Macs(l.queue)
      && forall mac :: mac in batch ==> Some(batch[mac]) == LastFor(l.queue, mac)
  {
    DrainCoalesces(l);
    var d := ReceiveN(l, |l.queue|);
    assert l.queue[0].sensorMac in Macs(l.queue);
    assert |d.pending| > 0;
  }

  /** The list handed to the callback: one entry per key of the batch, each
      key once, in an order the map iteration chooses. */
  method BatchList(batch: Batch) returns (keys: seq<string>, ms: seq<Measurement>)
    ensures |keys| == |ms| == |batch|
    ensures forall i :: 0 <= i < |keys| ==> keys[i] in batch && ms[i] == batch[keys[i]]
    ensures forall i, j :: 0 <= i < j < |keys| ==> keys[i] != keys[j]
    ensures forall mac :: mac in batch ==> mac in keys
  {
    keys, ms := [], [];
    var rest := batch.Keys;
    while rest != {}
      invariant |keys| == |ms|
      invariant rest <= batch.Keys
      invariant forall i :: 0 <= i < |keys| ==> keys[i] in batch && keys[i] !in rest && ms[i] == batch[keys[i]]
      invariant forall i, j :: 0 <= i < j < |keys| ==> keys[i] != keys[j]
      invariant forall mac :: mac in batch ==> mac in rest || mac in keys
      invariant |keys| + |rest| == |batch.Keys|
      decreases |rest|
    {
      var mac :| mac in rest;
      keys, ms := keys + [mac], ms + [batch[mac]];
      rest := rest - {mac};
    }
    assert |batch.Keys| == |batch|;
  }
}
