/**
  The receive limiter of the data channel: an upper bound on what it lets through in any interval, and when
  it drops nothing (src/adapters/transport/WebRtcTransportAdapter.js:117-135).
*/
module RateLimiter {
  const MAX_INCOMING_BYTES := 32 * 1024
  const RATE_LIMIT_WINDOW := 1000
  const RATE_LIMIT_MAX := 30

  /** A message event: when it fires and how large its data is. */
  datatype Arrival = Arrival(time: int, size: nat)

  datatype Meter = Meter(count: nat, windowStart: int)

  /** One message event: the meter afterwards, and whether the callbacks run. */
  function Admit(m: Meter, a: Arrival): (Meter, bool) {
    if a.size > MAX_INCOMING_BYTES then (m, false)
    else
      var m' := if a.time - m.windowStart >= RATE_LIMIT_WINDOW then Meter(1, a.time) else m.(count := m.count + 1);
      (m', m'.count <= RATE_LIMIT_MAX)
  }

  /** The handler with its two captured variables, and the messages it passed on. */
  class DataChannel {
    var rateCount: nat
    var rateWindowStart: int
    var delivered: seq<Arrival>

    function View(): Meter
      reads this
    {
      Meter(rateCount, rateWindowStart)
    }

    constructor (now: int)
      ensures View() == Meter(0, now) && delivered == []
    {
      rateCount, rateWindowStart, delivered := 0, now, [];
    }

    method OnMessage(a: Arrival)
      modifies this
      ensures View() == Admit(old(View()), a).0
      ensures delivered == old(delivered) + if Admit(old(View()), a).1 then [a] else []
    {
      if a.size > MAX_INCOMING_BYTES {
        return;
      }
      if a.time - rateWindowStart >= RATE_LIMIT_WINDOW {
        rateCount := 0;
        rateWindowStart := a.time;
      }
      rateCount := rateCount + 1;
      if rateCount > RATE_LIMIT_MAX {
        return;
      }
      delivered := delivered + [a];
    }
  }

  // ---- Traces ----

  function Delivered(m: Meter, arrivals: seq<Arrival>): seq<Arrival>
    decreases |arrivals|
  {
    if arrivals == [] then []
    else
      var (m', passed) := Admit(m, arrivals[0]);
      (if passed then [arrivals[0]] else []) + Delivered(m', arrivals[1..])
  }

  /** A clock that never goes back, starting when the channel was set up. */
  ghost predicate Monotone(start: int, arrivals: seq<Arrival>) {
    && (forall i :: 0 <= i < |arrivals| ==> start <= arrivals[i].time)
    && (forall i, j :: 0 <= i < j < |arrivals| ==> arrivals[i].time <= arrivals[j].time)
  }

  /** How many of the messages fall into the closed interval from..until. */
  function CountIn(arrivals: seq<Arrival>, from: int, until: int): nat
    decreases |arrivals|
  {
    if arrivals == [] then 0
    else (if from <= arrivals[0].time <= until then 1 else 0) + CountIn(arrivals[1..], from, until)
  }

  /** How many windows can begin in from..until: they are at least 1000 ms apart. */
  function Starts(from: int, until: int): nat {
    if from > until then 0 else (until - from) / RATE_LIMIT_WINDOW + 1
  }

  function Ceiling(length: nat): nat {
    (length + RATE_LIMIT_WINDOW - 1) / RATE_LIMIT_WINDOW
  }

  function Max(x: int, y: int): int {
    if x >= y then x else y
  }

  /** What the current window may still let through inside from..until. */
  function Rest(m: Meter, from: int, until: int): nat {
    if from < m.windowStart + RATE_LIMIT_WINDOW && m.windowStart <= until && m.count <= RATE_LIMIT_MAX then
      RATE_LIMIT_MAX - m.count
    else 0
  }

  lemma CountLater(arrivals: seq<Arrival>, from: int, until: int)
    requires forall a :: a in arrivals ==> a.time > until
    ensures CountIn(arrivals, from, until) == 0
    decreases |arrivals|
  {
  }

  lemma {:induction false} DeliveredIsPart(m: Meter, arrivals: seq<Arrival>)
    ensures forall a :: a in Delivered(m, arrivals) ==> a in arrivals
    decreases |arrivals|
  {
    if arrivals != [] {
      DeliveredIsPart(Admit(m, arrivals[0]).0, arrivals[1..]);
    }
  }

  /**
    With all arrivals at or after `from`: the rest of the current window, and 30 for each window that can still
    begin.
  */
  lemma {:induction false} BoundFrom(m: Meter, arrivals: seq<Arrival>, from: int, until: int)
    requires Monotone(m.windowStart, arrivals)
    requires forall i :: 0 <= i < |arrivals| ==> from <= arrivals[i].time
    ensures CountIn(Delivered(m, arrivals), from, until)
            <= Rest(m, from, until) + RATE_LIMIT_MAX * Starts(Max(m.windowStart + RATE_LIMIT_WINDOW, from), until)
    decreases |arrivals|
  {
    if arrivals != [] {
      var a := arrivals[0];
      var (m', passed) := Admit(m, a);
      if a.time > until {
        DeliveredIsPart(m, arrivals);
        assert forall i :: 0 <= i < |arrivals| ==> arrivals[i].time > until;
        CountLater(Delivered(m, arrivals), from, until);
      } else {
        BoundFrom(m', arrivals[1..], from, until);
        CountStep(m, arrivals, from, until);
        if a.size <= MAX_INCOMING_BYTES && a.time - m.windowStart >= RATE_LIMIT_WINDOW {
          StartsSplit(Max(m.windowStart + RATE_LIMIT_WINDOW, from), a.time, until);
        }
      }
    }
  }

  lemma CountStep(m: Meter, arrivals: seq<Arrival>, from: int, until: int)
    requires arrivals != []
    ensures var (m', passed) := Admit(m, arrivals[0]);
      CountIn(Delivered(m, arrivals), from, until) ==
        (if passed && from <= arrivals[0].time <= until then 1 else 0)
        + CountIn(Delivered(m', arrivals[1..]), from, until)
  {
    var (m', passed) := Admit(m, arrivals[0]);
    if passed {
      assert Delivered(m, arrivals)[1..] == Delivered(m', arrivals[1..]);
    } else {
      assert Delivered(m, arrivals) == Delivered(m', arrivals[1..]);
    }
  }

  /** A window that begins at `now` uses up one start. */
  lemma StartsSplit(from: int, now: int, until: int)
    requires from <= now <= until
    ensures Starts(now + RATE_LIMIT_WINDOW, until) + 1 <= Starts(from, until)
  {
  }

  /** For any trace and any interval of `length` ms: at most 30 * (ceil(length / 1000) + 1) messages get through. */
  lemma {:induction false} DeliveryBound(m: Meter, arrivals: seq<Arrival>, from: int, length: nat)
    requires Monotone(m.windowStart, arrivals) && length > 0
    ensures CountIn(Delivered(m, arrivals), from, from + length) <= RATE_LIMIT_MAX * (Ceiling(length) + 1)
    decreases |arrivals|
  {
    if arrivals != [] {
      if arrivals[0].time < from {
        CountStep(m, arrivals, from, from + length);
        DeliveryBound(Admit(m, arrivals[0]).0, arrivals[1..], from, length);
      } else {
        BoundFrom(m, arrivals, from, from + length);
      }
    }
  }

  function Burst(time: int, n: nat): seq<Arrival> {
    seq(n, _ => Arrival(time, 1))
  }

  /** A burst of 30 at each full second from second `first` to second `last`. */
  function Bursts(first: nat, last: nat): seq<Arrival>
    decreases last - first
  {
    if first > last then [] else Burst(first * RATE_LIMIT_WINDOW, RATE_LIMIT_MAX) + Bursts(first + 1, last)
  }

  /**
    For every length the bound is reached: 30 messages at the end of one window, and 30 at the start of every
    window after it.
  */
  lemma DeliveryBoundIsTight(length: nat)
    requires length > 0
    ensures exists m: Meter, arrivals ::
      Monotone(m.windowStart, arrivals) &&
      CountIn(Delivered(m, arrivals), 999, 999 + length) == RATE_LIMIT_MAX * (Ceiling(length) + 1)
  {
    var m, last := Meter(0, 0), Ceiling(length);
    var later := Bursts(1, last);
    var arrivals := Burst(999, RATE_LIMIT_MAX) + later;
    BurstPasses(m, 999, RATE_LIMIT_MAX, later);
    BurstsPass(Meter(RATE_LIMIT_MAX, 0), 1, last);
    CountBurst(999, RATE_LIMIT_MAX, later, 999, 999 + length);
    CountBursts(1, last, 999, 999 + length);
    BurstsMonotone(1, last);
    assert Monotone(m.windowStart, arrivals);
    assert CountIn(Delivered(m, arrivals), 999, 999 + length) == RATE_LIMIT_MAX * (Ceiling(length) + 1);
  }

  lemma {:induction false} BurstsMonotone(first: nat, last: nat)
    ensures Monotone(first * RATE_LIMIT_WINDOW, Bursts(first, last))
    decreases last - first
  {
    if first <= last {
      BurstsMonotone(first + 1, last);
    }
  }

  /** A burst in each of the following windows gets through. */
  lemma {:induction false} BurstsPass(m: Meter, first: nat, last: nat)
    requires m.windowStart <= (first - 1) * RATE_LIMIT_WINDOW
    ensures Delivered(m, Bursts(first, last)) == Bursts(first, last)
    decreases last - first
  {
    if first <= last {
      var now := first * RATE_LIMIT_WINDOW;
      BurstPasses(m, now, RATE_LIMIT_MAX, Bursts(first + 1, last));
      BurstsPass(Meter(RATE_LIMIT_MAX, now), first + 1, last);
    }
  }

  /** A burst that fits into the window it falls in gets through. */
  lemma {:induction false} BurstPasses(m: Meter, time: int, n: nat, rest: seq<Arrival>)
    requires m.windowStart <= time && n > 0
    requires if time - m.windowStart >= RATE_LIMIT_WINDOW then n <= RATE_LIMIT_MAX else m.count + n <= RATE_LIMIT_MAX
    ensures var m' := if time - m.windowStart >= RATE_LIMIT_WINDOW then Meter(n, time)
                      else Meter(m.count + n, m.windowStart);
      Delivered(m, Burst(time, n) + rest) == Burst(time, n) + Delivered(m', rest)
    decreases n
  {
    var all := Burst(time, n) + rest;
    assert all[1..] == Burst(time, n - 1) + rest;
    assert Burst(time, n) == [Arrival(time, 1)] + Burst(time, n - 1);
    if n > 1 {
      BurstPasses(Admit(m, Arrival(time, 1)).0, time, n - 1, rest);
    } else {
      assert Burst(time, 0) + rest == rest;
    }
  }

  lemma {:induction false} CountBurst(time: int, n: nat, rest: seq<Arrival>, from: int, until: int)
    ensures CountIn(Burst(time, n) + rest, from, until) ==
            (if from <= time <= until then n else 0) + CountIn(rest, from, until)
    decreases n
  {
    var all := Burst(time, n) + rest;
    if n == 0 {
      assert all == rest;
    } else {
      assert all[1..] == Burst(time, n - 1) + rest;
      CountBurst(time, n - 1, rest, from, until);
    }
  }

  lemma {:induction false} CountBursts(first: nat, last: nat, from: int, until: int)
    requires from <= first * RATE_LIMIT_WINDOW && last * RATE_LIMIT_WINDOW <= until
    ensures CountIn(Bursts(first, last), from, until) == if first > last then 0 else RATE_LIMIT_MAX * (last - first + 1)
    decreases last - first
  {
    if first <= last {
      CountBurst(first * RATE_LIMIT_WINDOW, RATE_LIMIT_MAX, Bursts(first + 1, last), from, until);
      CountBursts(first + 1, last, from, until);
    }
  }

  // ---- What is delivered, and when nothing is lost ----

  /** In-order subsequence of the arrivals: the positions that got through. */
  ghost predicate PickedFrom(part: seq<Arrival>, whole: seq<Arrival>, at: seq<nat>) {
    && |at| == |part|
    && (forall i :: 0 <= i < |part| ==>
          at[i] < |whole| && part[i] == whole[at[i]] && part[i].size <= MAX_INCOMING_BYTES)
    && (forall i, j :: 0 <= i < j < |part| ==> at[i] < at[j])
  }

  lemma {:induction false} DeliveredInOrder(m: Meter, arrivals: seq<Arrival>) returns (at: seq<nat>)
    ensures PickedFrom(Delivered(m, arrivals), arrivals, at)
    decreases |arrivals|
  {
    if arrivals == [] {
      at := [];
    } else {
      var (m', passed) := Admit(m, arrivals[0]);
      var later := DeliveredInOrder(m', arrivals[1..]);
      var shifted := seq(|later|, i requires 0 <= i < |later| => later[i] + 1);
      at := (if passed then [0] else []) + shifted;
    }
  }

  /** The arrivals that are not oversized. */
  function Small(arrivals: seq<Arrival>): seq<Arrival>
    decreases |arrivals|
  {
    if arrivals == [] then []
    else (if arrivals[0].size <= 32768 then [arrivals[0]] else []) + Small(arrivals[1..])
  }

  /** Oversized messages cost the others nothing: what is delivered is the same as if they had never been sent. */
  lemma {:induction false} OversizedDoNotCount(m: Meter, arrivals: seq<Arrival>)
    ensures Delivered(m, arrivals) == Delivered(m, Small(arrivals))
    decreases |arrivals|
  {
    if arrivals != [] {
      OversizedDoNotCount(Admit(m, arrivals[0]).0, arrivals[1..]);
      if arrivals[0].size <= 32768 {
        assert Small(arrivals)[1..] == Small(arrivals[1..]);
      } else {
        assert Small(arrivals) == Small(arrivals[1..]);
        assert Delivered(m, arrivals) == Delivered(m, arrivals[1..]);
      }
    }
  }

  /** At most 30 messages in every 1000 ms. */
  ghost predicate Polite(arrivals: seq<Arrival>) {
    && (forall i :: 0 <= i < |arrivals| ==> arrivals[i].size <= MAX_INCOMING_BYTES)
    && (forall i :: 0 <= i && i + RATE_LIMIT_MAX < |arrivals| ==>
          arrivals[i + RATE_LIMIT_MAX].time - arrivals[i].time >= RATE_LIMIT_WINDOW)
  }

  /** The messages counted in the current window are the last ones that arrived before position `i`. */
  ghost predicate CountsBack(m: Meter, arrivals: seq<Arrival>, i: nat) {
    && i <= |arrivals|
    && m.count <= i && m.count <= RATE_LIMIT_MAX
    && (m.count > 0 ==> m.windowStart <= arrivals[i - m.count].time)
  }

  /** A sender that keeps to 30 messages in every 1000 ms, none oversized, loses nothing. */
  lemma PoliteSenderLosesNothing(start: int, arrivals: seq<Arrival>)
    requires Monotone(start, arrivals) && Polite(arrivals)
    ensures Delivered(Meter(0, start), arrivals) == arrivals
  {
    PoliteFrom(Meter(0, start), arrivals, 0);
  }

  lemma {:induction false} PoliteFrom(m: Meter, arrivals: seq<Arrival>, i: nat)
    requires CountsBack(m, arrivals, i) && Polite(arrivals) && Monotone(m.windowStart, arrivals[i..])
    requires forall j, k :: 0 <= j < k < |arrivals| ==> arrivals[j].time <= arrivals[k].time
    ensures Delivered(m, arrivals[i..]) == arrivals[i..]
    decreases |arrivals| - i
  {
    if i < |arrivals| {
      var a := arrivals[i];
      assert arrivals[i..][0] == a && arrivals[i..][1..] == arrivals[i + 1..];
      if m.count == RATE_LIMIT_MAX {
        assert arrivals[(i - m.count) + RATE_LIMIT_MAX].time - arrivals[i - m.count].time >= RATE_LIMIT_WINDOW;
      }
      var m' := Admit(m, a).0;
      assert CountsBack(m', arrivals, i + 1);
      PoliteFrom(m', arrivals, i + 1);
    }
  }
}
