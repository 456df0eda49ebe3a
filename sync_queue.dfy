/** The sender side of transform/input synchronisation, shared by every
    sender in the project (the grab bridge, the steering bridge, the
    steering input manager and the vehicle's fixed-update queue): each new
    value overwrites a single queued slot and raises a "has update" flag; a
    per-frame pump advances a timer only while something is queued, and once
    the timer reaches the sync interval it sends the queued value, resets the
    timer to 0 and clears the flag. */
module SyncQueue {
  import opened Basics

  datatype Queue<T> = Queue(timer: real, hasUpdate: bool, value: T)

  /** A new value replaces whatever was queued. */
  function Offer<T>(q: Queue<T>, v: T): (r: Queue<T>)
    ensures r.hasUpdate && r.value == v && r.timer == q.timer
  {
    q.(hasUpdate := true, value := v)
  }

  datatype Pumped<T> = Pumped(queue: Queue<T>, sent: Option<T>)

  /** One frame of the pump, `dt` seconds after the previous one. */
  function Pump<T>(q: Queue<T>, dt: real, interval: real): (p: Pumped<T>)
    ensures !q.hasUpdate ==> p == Pumped(q, None)
    ensures p.sent.Some? <==> q.hasUpdate && q.timer + dt >= interval
    ensures p.sent.Some? ==> p.sent.value == q.value && p.queue == Queue(0.0, false, q.value)
    ensures p.sent.None? ==> p.queue.value == q.value && p.queue.hasUpdate == q.hasUpdate
    ensures p.sent.None? && q.hasUpdate ==> p.queue.timer == q.timer + dt
  {
    if !q.hasUpdate then Pumped(q, None)
    else if q.timer + dt >= interval then Pumped(Queue(0.0, false, q.value), Some(q.value))
    else Pumped(q.(timer := q.timer + dt), None)
  }

  // ---------------------------------------------------------------------
  // Traces of offers and frames
  // ---------------------------------------------------------------------

  datatype Event<T> = Put(v: T) | Tick(dt: real)

  datatype Run<T> = Run(queue: Queue<T>, sent: seq<T>)

  /** The queue after a trace, with everything sent in order. */
  function Replay<T>(q: Queue<T>, evs: seq<Event<T>>, interval: real): Run<T>
    decreases |evs|
  {
    if evs == [] then Run(q, [])
    else match evs[0]
      case Put(v) => Replay(Offer(q, v), evs[1..], interval)
      case Tick(dt) =>
        var p := Pump(q, dt, interval);
        var r := Replay(p.queue, evs[1..], interval);
        Run(r.queue, (if p.sent.Some? then [p.sent.value] else []) + r.sent)
  }

  /** Time covered by the frames of a trace. */
  function Elapsed<T>(evs: seq<Event<T>>): real
    decreases |evs|
  {
    if evs == [] then 0.0
    else (if evs[0].Tick? then evs[0].dt else 0.0) + Elapsed(evs[1..])
  }

  function Puts<T>(evs: seq<Event<T>>): nat
    decreases |evs|
  {
    if evs == [] then 0 else (if evs[0].Put? then 1 else 0) + Puts(evs[1..])
  }

  /** The value of the last offer in a trace, or `d` if there is none. */
  function LastPut<T>(evs: seq<Event<T>>, d: T): T
    decreases |evs|
  {
    if evs == [] then d
    else LastPut(evs[1..], if evs[0].Put? then evs[0].v else d)
  }

  predicate ForwardTime<T>(evs: seq<Event<T>>) {
    forall i :: 0 <= i < |evs| && evs[i].Tick? ==> evs[i].dt >= 0.0
  }

  /** The time `n` sends use up, one interval each. */
  function Spent(n: nat, interval: real): real {
    if n == 0 then 0.0 else Spent(n - 1, interval) + interval
  }

  lemma {:induction false} SpentIsProduct(n: nat, interval: real)
    ensures Spent(n, interval) == (n as real) * interval
  {
    if n > 0 {
      SpentIsProduct(n - 1, interval);
      assert (n as real) * interval == ((n - 1) as real) * interval + interval;
    }
  }

  /** The invariant behind the send rate: the time the sends of a trace use
      up plus the time left on the timer never exceed the time that has
      passed (counting what was on the timer at the start). */
  lemma {:induction false} SendBudget<T>(q: Queue<T>, evs: seq<Event<T>>, interval: real)
    requires interval > 0.0 && q.timer >= 0.0 && ForwardTime(evs)
    ensures var r := Replay(q, evs, interval);
      r.queue.timer >= 0.0 &&
      r.queue.timer + Spent(|r.sent|, interval) <= q.timer + Elapsed(evs)
    decreases |evs|
  {
    if evs != [] {
      assert ForwardTime(evs[1..]) by {
        forall i | 0 <= i < |evs[1..]| && evs[1..][i].Tick? ensures evs[1..][i].dt >= 0.0 {
          assert evs[1..][i] == evs[i + 1];
        }
      }
      match evs[0]
      case Put(v) =>
        SendBudget(Offer(q, v), evs[1..], interval);
      case Tick(dt) =>
        assert dt >= 0.0 by { assert evs[0].Tick?; }
        var p := Pump(q, dt, interval);
        SendBudget(p.queue, evs[1..], interval);
        var r := Replay(p.queue, evs[1..], interval);
        var head: seq<T> := if p.sent.Some? then [p.sent.value] else [];
        assert Replay(q, evs, interval) == Run(r.queue, head + r.sent);
        if p.sent.Some? {
          assert |head + r.sent| == |r.sent| + 1;
        } else {
          assert head + r.sent == r.sent;
        }
    }
  }

  /** At most one send per sync interval: starting from an empty timer, a
      trace lasting `Elapsed(evs)` seconds sends at most
      Elapsed(evs) / interval values. */
  lemma SendRate<T>(q: Queue<T>, evs: seq<Event<T>>, interval: real)
    requires interval > 0.0 && q.timer == 0.0 && ForwardTime(evs)
    ensures (|Replay(q, evs, interval).sent| as real) * interval <= Elapsed(evs)
  {
    SendBudget(q, evs, interval);
    SpentIsProduct(|Replay(q, evs, interval).sent|, interval);
  }

  /** Offers are coalesced: a trace never sends more values than were
      offered (plus one already waiting at its start). */
  lemma {:induction false} SendsAtMostPuts<T>(q: Queue<T>, evs: seq<Event<T>>, interval: real)
    ensures var r := Replay(q, evs, interval);
      |r.sent| + (if r.queue.hasUpdate then 1 else 0) <= Puts(evs) + (if q.hasUpdate then 1 else 0)
    decreases |evs|
  {
    if evs != [] {
      match evs[0]
      case Put(v) =>
        SendsAtMostPuts(Offer(q, v), evs[1..], interval);
      case Tick(dt) =>
        SendsAtMostPuts(Pump(q, dt, interval).queue, evs[1..], interval);
    }
  }

  /** Only the latest value is kept: whatever the frames did, the queued
      value is the last one offered. */
  lemma {:induction false} LatestValueKept<T>(q: Queue<T>, evs: seq<Event<T>>, interval: real)
    ensures Replay(q, evs, interval).queue.value == LastPut(evs, q.value)
    decreases |evs|
  {
    if evs != [] {
      match evs[0]
      case Put(v) =>
        LatestValueKept(Offer(q, v), evs[1..], interval);
      case Tick(dt) =>
        LatestValueKept(Pump(q, dt, interval).queue, evs[1..], interval);
    }
  }

  /** Nothing is sent that was not queued: every sent value is the value
      queued at the start or one of the offers. */
  lemma {:induction false} SentWereOffered<T>(q: Queue<T>, evs: seq<Event<T>>, interval: real, k: nat)
    requires k < |Replay(q, evs, interval).sent|
    ensures var s := Replay(q, evs, interval).sent[k];
      s == q.value || exists i :: 0 <= i < |evs| && evs[i] == Put(s)
    decreases |evs|
  {
    if evs != [] {
      var s := Replay(q, evs, interval).sent[k];
      match evs[0]
      case Put(v) =>
        SentWereOffered(Offer(q, v), evs[1..], interval, k);
        if s != v {
          var i :| 0 <= i < |evs[1..]| && evs[1..][i] == Put(s);
          assert evs[i + 1] == Put(s);
        } else {
          assert evs[0] == Put(s);
        }
      case Tick(dt) =>
        var p := Pump(q, dt, interval);
        var head: seq<T> := if p.sent.Some? then [p.sent.value] else [];
        if k >= |head| {
          SentWereOffered(p.queue, evs[1..], interval, k - |head|);
          if s != q.value {
            var i :| 0 <= i < |evs[1..]| && evs[1..][i] == Put(s);
            assert evs[i + 1] == Put(s);
          }
        }
    }
  }
}
