/** The server process: polling, its back-off, and waking workers. */
module Servers {
  import opened RoundRobin

  // ----- Back-off -----

  /** All that is assumed of `log10`: it grows strictly and is 0 at 1. */
  ghost predicate LogLike(log10: real -> real) {
    log10(1.0) == 0.0 && forall x, y :: 0.0 < x < y ==> log10(x) < log10(y)
  }

  function Abs(x: real): real {
    if x < 0.0 then -x else x
  }

  function Gap(max: real, d: real): real {
    max * max - d * d
  }

  /** The duration after `increase_timeout`. */
  function Increase(log10: real -> real, max: real, d: real): real {
    if d < max then
      var x := d + Abs(log10(Gap(max, d)));
      if x > max || x + 1.0 >= max then max else x
    else d
  }

  lemma IncreaseRange(log10: real -> real, max: real, d: real)
    requires d <= max
    ensures d <= Increase(log10, max, d) <= max
  {
  }

  /** Within one unit of the maximum, one tick is enough. */
  lemma IncreaseNear(log10: real -> real, max: real, d: real)
    requires d <= max <= d + 1.0
    ensures Increase(log10, max, d) == max
  {
  }

  lemma Spread(max: real, d: real)
    requires 0.0 <= d && d + 1.0 < max
    ensures max * max - d * d > max > 1.0
  {
    var a, b := max - d - 1.0, max + d;
    assert max * max - d * d == (a + 1.0) * b;
    assert (a + 1.0) * b == a * b + b;
    assert a * b > 0.0;
  }

  /** Farther away, max^2 - d^2 exceeds max, so each tick gains more than log10(max). */
  lemma IncreaseFar(log10: real -> real, max: real, d: real)
    requires LogLike(log10) && 0.0 <= d && d + 1.0 < max
    ensures Increase(log10, max, d) == max || Increase(log10, max, d) > d + log10(max)
    ensures log10(max) > 0.0
  {
    Spread(max, d);
    assert log10(1.0) < log10(max) < log10(max * max - d * d);
  }

  /** The duration after `n` ticks in a row that find nothing. */
  function Backoff(log10: real -> real, max: real, d: real, n: nat): real {
    if n == 0 then d else Increase(log10, max, Backoff(log10, max, d, n - 1))
  }

  lemma {:induction false} BackoffRange(log10: real -> real, max: real, d: real, n: nat)
    requires d <= max
    ensures d <= Backoff(log10, max, d, n) <= max
    ensures n > 0 ==> Backoff(log10, max, d, n - 1) <= Backoff(log10, max, d, n)
  {
    if n > 0 {
      BackoffRange(log10, max, d, n - 1);
      IncreaseRange(log10, max, Backoff(log10, max, d, n - 1));
    }
  }

  lemma OneMore(n: nat, c: real)
    requires n > 0
    ensures n as real * c == (n - 1) as real * c + c
  {
    assert n as real == (n - 1) as real + 1.0;
  }

  lemma TickGains(log10: real -> real, max: real, x: real)
    requires LogLike(log10) && 0.0 <= x <= max
    ensures Increase(log10, max, x) == max || Increase(log10, max, x) >= x + log10(max)
  {
    if x + 1.0 >= max {
      IncreaseNear(log10, max, x);
    } else {
      IncreaseFar(log10, max, x);
    }
  }

  /** `n` times the gain of one tick. */
  function Gain(n: nat, c: real): real {
    if n == 0 then 0.0 else Gain(n - 1, c) + c
  }

  lemma {:induction false} GainIsProduct(n: nat, c: real)
    ensures Gain(n, c) == n as real * c
  {
    if n > 0 {
      GainIsProduct(n - 1, c);
      OneMore(n, c);
    }
  }

  lemma {:induction false} BackoffGains(log10: real -> real, max: real, d: real, n: nat)
    requires LogLike(log10) && 0.0 <= d <= max
    ensures Backoff(log10, max, d, n) == max || Backoff(log10, max, d, n) >= d + Gain(n, log10(max))
  {
    if n > 0 {
      var c, before := log10(max), Backoff(log10, max, d, n - 1);
      BackoffGains(log10, max, d, n - 1);
      BackoffRange(log10, max, d, n - 1);
      TickGains(log10, max, before);
      assert Backoff(log10, max, d, n) == Increase(log10, max, before);
      assert Gain(n, c) == Gain(n - 1, c) + c;
    }
  }

  function Ceiling(x: real): int {
    -((-x).Floor)
  }

  /** How many empty ticks are enough. */
  function TicksNeeded(log10: real -> real, max: real, d: real): int {
    if log10(max) > 0.0 then Ceiling((max - d) / log10(max)) else 1
  }

  /** Empty ticks reach exactly the maximum after at most TicksNeeded of them, and stay there. */
  lemma BackoffConverges(log10: real -> real, max: real, d: real, n: nat)
    requires LogLike(log10) && 0.0 <= d < max
    requires n >= TicksNeeded(log10, max, d)
    ensures Backoff(log10, max, d, n) == max
  {
    BackoffRange(log10, max, d, n);
    if log10(max) > 0.0 {
      var c := log10(max);
      Scale(n as real, max - d, c);
      GainIsProduct(n, c);
      BackoffGains(log10, max, d, n);
    } else {
      SmallMaximum(log10, max);
      BackoffRange(log10, max, d, n - 1);
      IncreaseNear(log10, max, Backoff(log10, max, d, n - 1));
    }
  }

  lemma SmallMaximum(log10: real -> real, max: real)
    requires LogLike(log10) && log10(max) <= 0.0
    ensures max <= 1.0
  {
    assert max > 1.0 ==> log10(1.0) < log10(max);
  }

  lemma Scale(n: real, gap: real, c: real)
    requires c > 0.0 && gap > 0.0 && n >= gap / c
    ensures n * c >= gap && n > 0.0
  {
    assert gap / c * c == gap;
  }

  /** One tick, exactly: the gain is the absolute value of log10(max^2 - d^2), and the last unit is skipped. */
  lemma TickExactly(log10: real -> real, max: real, d: real)
    ensures d >= max ==> Increase(log10, max, d) == d
    ensures d < max ==>
      var l := log10(max * max - d * d);
      var g := if l < 0.0 then -l else l;
      Increase(log10, max, d) == if d + g < max - 1.0 then d + g else max
  {
  }

  /** What an empty tick adds to duration `x`, far from the maximum. */
  function TickGain(log10: real -> real, max: real, x: real): (g: real)
    ensures g >= 0.0
  {
    Abs(log10(Gap(max, x)))
  }

  /** What the first `n` empty ticks add together. */
  function TotalGain(log10: real -> real, max: real, d: real, n: nat): (g: real)
    ensures g >= 0.0
  {
    if n == 0 then 0.0
    else TotalGain(log10, max, d, n - 1) + TickGain(log10, max, Backoff(log10, max, d, n - 1))
  }

  lemma TickGainIs(log10: real -> real, max: real, x: real)
    ensures var l := log10(max * max - x * x); TickGain(log10, max, x) == if l < 0.0 then -l else l
  {
  }

  /** The sum, spelled out: tick number `n + 1` adds the gain at the duration `x` it finds. */
  lemma TotalGainIs(log10: real -> real, max: real, d: real, n: nat, x: real)
    requires x == Backoff(log10, max, d, n)
    ensures TotalGain(log10, max, d, 0) == 0.0
    ensures var l := log10(max * max - x * x);
      TotalGain(log10, max, d, n + 1) == TotalGain(log10, max, d, n) + if l < 0.0 then -l else l
  {
    TickGainIs(log10, max, x);
  }

  lemma TickByGain(log10: real -> real, max: real, x: real)
    requires x <= max
    ensures var y, g := Increase(log10, max, x), TickGain(log10, max, x);
      (y == max && x + g >= max - 1.0) || (y == x + g && y < max - 1.0)
  {
    var g := TickGain(log10, max, x);
    TickExactly(log10, max, x);
    assert g == Abs(log10(max * max - x * x));
  }

  /**
   * As long as the duration stays below the last unit before the maximum, it is exactly where it started plus what the
   * ticks so far have added; so a maximum that is far away is not reached before the gains add up to it.
   */
  lemma {:induction false} BackoffExactly(log10: real -> real, max: real, d: real, n: nat)
    requires d < max - 1.0
    ensures Backoff(log10, max, d, n) < max - 1.0 <==> d + TotalGain(log10, max, d, n) < max - 1.0
    ensures Backoff(log10, max, d, n) < max - 1.0 ==>
      Backoff(log10, max, d, n) == d + TotalGain(log10, max, d, n)
  {
    if n > 0 {
      BackoffExactly(log10, max, d, n - 1);
      BackoffRange(log10, max, d, n);
      TickByGain(log10, max, Backoff(log10, max, d, n - 1));
    }
  }

  lemma SmallGain(log10: real -> real, max: real, x: real)
    requires LogLike(log10) && max > 1.0 && 0.0 <= x < max - 1.0
    ensures var l := log10(max * max - x * x);
      0.0 < l <= log10(max * max)
  {
    Spread(max, x);
    assert x * x >= 0.0;
    assert log10(1.0) < log10(max * max - x * x);
  }

  /** So it takes at least as many ticks as gains of log10(max^2) fit between the start and that last unit. */
  lemma {:induction false} NotReachedEarly(log10: real -> real, max: real, d: real, n: nat)
    requires LogLike(log10) && max > 1.0 && 0.0 <= d
    requires d + Gain(n, log10(max * max)) < max - 1.0
    ensures Backoff(log10, max, d, n) <= d + Gain(n, log10(max * max))
  {
    if n > 0 {
      GainPositive(log10, max, n);
      NotReachedEarly(log10, max, d, n - 1);
      BackoffRange(log10, max, d, n - 1);
      var x := Backoff(log10, max, d, n - 1);
      SmallGain(log10, max, x);
      TickExactly(log10, max, x);
    }
  }

  lemma GainPositive(log10: real -> real, max: real, n: nat)
    requires LogLike(log10) && max > 1.0
    ensures log10(max * max) > 0.0 && Gain(n, log10(max * max)) >= 0.0
  {
    assert max * max > 1.0;
    assert log10(1.0) < log10(max * max);
    GainIsProduct(n, log10(max * max));
  }

  // ----- Callbacks -----

  /** What the count query of `idle_jobcheck` gives: no result, a result without a row, or a count. */
  datatype Poll = Failed | NoRow | Counted(pending: nat)

  datatype Callback = Connect | Timeout(poll: Poll)

  /** The idle duration after a callback. */
  function NextDuration(log10: real -> real, min: real, max: real, d: real, c: Callback): real {
    match c
    case Connect => min
    case Timeout(NoRow) => d
    case Timeout(Failed) => Increase(log10, max, d)
    case Timeout(Counted(n)) => if n > 0 then min else Increase(log10, max, d)
  }

  function Upper(min: real, max: real): real {
    if min < max then max else min
  }

  function Durations(log10: real -> real, min: real, max: real, cs: seq<Callback>): real {
    if cs == [] then min
    else NextDuration(log10, min, max, Durations(log10, min, max, cs[..|cs| - 1]), cs[|cs| - 1])
  }

  /** Whatever callbacks come, the duration stays between the minimum and the larger of the two limits. */
  lemma {:induction false} DurationRange(log10: real -> real, min: real, max: real, cs: seq<Callback>)
    ensures min <= Durations(log10, min, max, cs) <= Upper(min, max)
  {
    if cs != [] {
      var d := Durations(log10, min, max, cs[..|cs| - 1]);
      DurationRange(log10, min, max, cs[..|cs| - 1]);
      if d <= max { IncreaseRange(log10, max, d); }
    }
  }

  predicate IsEmptyTick(c: Callback) {
    c == Timeout(Failed) || c == Timeout(Counted(0))
  }

  /** From any point of any run, enough polls in a row that find nothing bring the duration to the maximum. */
  lemma {:induction false} QuietRunConverges(log10: real -> real, min: real, max: real, cs: seq<Callback>,
                                             quiet: seq<Callback>)
    requires LogLike(log10) && 0.0 <= min < max
    requires forall c :: c in quiet ==> IsEmptyTick(c)
    ensures Durations(log10, min, max, cs + quiet) == Backoff(log10, max, Durations(log10, min, max, cs), |quiet|)
    ensures |quiet| >= TicksNeeded(log10, max, Durations(log10, min, max, cs)) ==>
      Durations(log10, min, max, cs + quiet) == max
  {
    var d := Durations(log10, min, max, cs);
    DurationRange(log10, min, max, cs);
    if quiet == [] {
      assert cs + quiet == cs;
    } else {
      var front := quiet[..|quiet| - 1];
      assert (cs + quiet)[..|cs + quiet| - 1] == cs + front;
      assert quiet[|quiet| - 1] in quiet;
      QuietRunConverges(log10, min, max, cs, front);
    }
    if d < max && |quiet| >= TicksNeeded(log10, max, d) {
      BackoffConverges(log10, max, d, |quiet|);
    } else if d == max {
      BackoffRange(log10, max, d, |quiet|);
    }
  }

  /** What each kind of callback does to the duration, whatever came before it. */
  lemma AfterCallback(log10: real -> real, min: real, max: real, cs: seq<Callback>, n: nat)
    ensures Durations(log10, min, max, []) == min
    ensures Durations(log10, min, max, cs + [Connect]) == min
    ensures n > 0 ==> Durations(log10, min, max, cs + [Timeout(Counted(n))]) == min
    ensures var d := Durations(log10, min, max, cs);
      && Durations(log10, min, max, cs + [Timeout(NoRow)]) == d
      && Durations(log10, min, max, cs + [Timeout(Failed)]) == Increase(log10, max, d)
      && Durations(log10, min, max, cs + [Timeout(Counted(0))]) == Increase(log10, max, d)
  {
    forall c: Callback
      ensures Durations(log10, min, max, cs + [c]) ==
        NextDuration(log10, min, max, Durations(log10, min, max, cs), c)
    {
      assert (cs + [c])[..|cs|] == cs;
    }
  }

  /** How many of the callbacks are polls that find nothing. */
  function EmptyTicks(cs: seq<Callback>): nat {
    if cs == [] then 0 else EmptyTicks(cs[..|cs| - 1]) + if IsEmptyTick(cs[|cs| - 1]) then 1 else 0
  }

  /**
   * The duration at any time: after a datagram, a poll that counted something, or the start, it is the minimum with
   * the empty-tick step applied as often as polls have found nothing since.
   */
  lemma {:induction false} SinceReset(log10: real -> real, min: real, max: real, cs: seq<Callback>,
                                      later: seq<Callback>)
    requires cs != [] ==>
      var c := cs[|cs| - 1]; c.Connect? || (c.poll.Counted? && c.poll.pending > 0)
    requires forall c :: c in later ==> c.Timeout? && !(c.poll.Counted? && c.poll.pending > 0)
    ensures Durations(log10, min, max, cs + later) == Backoff(log10, max, min, EmptyTicks(later))
    decreases |later|
  {
    if later == [] {
      assert cs + later == cs;
    } else {
      var front, c := later[..|later| - 1], later[|later| - 1];
      SinceReset(log10, min, max, cs, front);
      assert (cs + later)[..|cs + later| - 1] == cs + front;
      assert c in later;
    }
  }

  /** The server's state that its callbacks update; `repeat` is what the timer is armed with. */
  class Server {
    const log10: real -> real
    const minIdle: real
    const maxIdle: real
    var duration: real
    var repeat: real
    var lastWorker: nat
    var pipes: seq<nat>
    ghost var callbacks: seq<Callback>

    ghost predicate Valid()
      reads this
    {
      && lastWorker < |pipes|
      && repeat == duration == Durations(log10, minIdle, maxIdle, callbacks)
    }

    constructor (log10: real -> real, minIdle: real, maxIdle: real, workers: nat)
      requires workers > 0
      ensures Valid() && callbacks == [] && pipes == seq(workers, _ => 0) && lastWorker == 0
      ensures this.log10 == log10 && this.minIdle == minIdle && this.maxIdle == maxIdle
    {
      this.log10 := log10;
      this.minIdle := minIdle;
      this.maxIdle := maxIdle;
      duration := minIdle;
      repeat := minIdle;
      lastWorker := 0;
      pipes := seq(workers, _ => 0);
      callbacks := [];
    }

    /** `ev_timer_stop`, `ev_timer_set` and `ev_timer_again` with the current duration. */
    method Rearm()
      modifies this`repeat
      ensures repeat == duration
    {
      repeat := duration;
    }

    /** Wakes the current worker with two bytes, if the write works, and moves on in any case. */
    method Schedule(written: bool)
      requires lastWorker < |pipes|
      modifies this`lastWorker, this`pipes
      ensures pipes ==
        if written then old(pipes)[old(lastWorker) := old(pipes)[old(lastWorker)] + 2] else old(pipes)
      ensures lastWorker == if old(lastWorker) == |old(pipes)| - 1 then 0 else old(lastWorker) + 1
    {
      if written {
        pipes := pipes[lastWorker := pipes[lastWorker] + MESSAGE];
      }
      lastWorker := lastWorker + 1;
      if lastWorker >= |pipes| { lastWorker := 0; }
    }

    /**
     * Below the maximum the duration grows by the absolute value of log10(max^2 - d^2), or to the maximum if that
     * comes within one unit of it, and the timer is rearmed; from the maximum on nothing happens.
     */
    method IncreaseTimeout()
      requires repeat == duration
      modifies this`duration, this`repeat
      ensures duration == Increase(log10, maxIdle, old(duration))
      ensures old(duration) >= maxIdle ==> duration == repeat == old(duration)
      ensures old(duration) < maxIdle ==>
        var l := log10(maxIdle * maxIdle - old(duration) * old(duration));
        var g := if l < 0.0 then -l else l;
        duration == repeat == if old(duration) + g < maxIdle - 1.0 then old(duration) + g else maxIdle
    {
      if duration < maxIdle {
        var max2 := maxIdle * maxIdle;
        var x2 := duration * duration;
        assert max2 - x2 == Gap(maxIdle, duration);
        duration := duration + Abs(log10(max2 - x2));
        if duration > maxIdle || duration + 1.0 >= maxIdle {
          duration := maxIdle;
        }
        Rearm();
      }
    }

    /** The next worker was woken, or not, and the callback is on record. */
    twostate predicate Served(c: Callback, wakes: bool, written: bool)
      reads this
    {
      && callbacks == old(callbacks) + [c]
      && |old(pipes)| > old(lastWorker)
      && pipes == (if wakes && written
                   then old(pipes)[old(lastWorker) := old(pipes)[old(lastWorker)] + 2] else old(pipes))
      && lastWorker == (if !wakes then old(lastWorker)
                        else if old(lastWorker) == |old(pipes)| - 1 then 0 else old(lastWorker) + 1)
    }

    /** A datagram resets duration and timer, and wakes a worker if it was received. */
    method OnConnect(received: bool, written: bool)
      requires Valid()
      modifies this
      ensures Valid() && Served(Connect, received, written)
      ensures duration == repeat == minIdle
    {
      duration := minIdle;
      Rearm();
      if received {
        Schedule(written);
      }
      AfterCallback(log10, minIdle, maxIdle, callbacks, 0);
      callbacks := callbacks + [Connect];
    }

    /**
     * The idle poll: a positive count wakes a worker and resets duration and timer; a count of 0 and a failed query
     * lengthen them by one step; a result without a row changes nothing.
     */
    method IdleJobcheck(poll: Poll, written: bool)
      requires Valid()
      modifies this
      ensures Valid() && Served(Timeout(poll), poll.Counted? && poll.pending > 0, written)
      ensures poll.Counted? && poll.pending > 0 ==> duration == repeat == minIdle
      ensures poll.NoRow? || (old(duration) >= maxIdle && (poll.Failed? || poll.pending == 0)) ==>
        duration == repeat == old(duration)
      ensures old(duration) < maxIdle && (poll.Failed? || (poll.Counted? && poll.pending == 0)) ==>
        var l := log10(maxIdle * maxIdle - old(duration) * old(duration));
        var g := if l < 0.0 then -l else l;
        duration == repeat == if old(duration) + g < maxIdle - 1.0 then old(duration) + g else maxIdle
    {
      match poll {
        case Counted(pending) =>
          if pending > 0 {
            Schedule(written);
            duration := minIdle;
            Rearm();
          } else {
            IncreaseTimeout();
          }
        case NoRow =>
        case Failed =>
          IncreaseTimeout();
      }
      AfterCallback(log10, minIdle, maxIdle, callbacks, if poll.Counted? then poll.pending else 0);
      callbacks := callbacks + [Timeout(poll)];
    }
  }
}
