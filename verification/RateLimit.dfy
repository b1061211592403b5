/** The fixed-window rate limiter over a stored counter. */
module RateLimit {
  import opened Prelude

  const SECOND: int := 1000
  const DAY_SECONDS: int := 24 * 3600
  const COUNT_MAX: int := 0x7fff_ffff

  datatype Decision = Allow | Limited

  /** The start of the window holding `now`, both in milliseconds; the window is in whole seconds. */
  function WindowStart(now: Time, window: int): Time
    requires window > 0
  {
    var secs := now / SECOND;
    (secs - secs % window) * SECOND
  }

  type Counts = map<(string, Time), int>

  datatype Settings = Settings(windowSeconds: int, limit: int) {
    function Window(): int {
      Max(1, windowSeconds)
    }

    function Cap(): int {
      Max(1, limit)
    }
  }

  /** The limiter's table. A counter that leaves its 32-bit column is an error, and the caller refuses
      the request. */
  class RateLimiter {
    var counts: Counts

    constructor ()
      ensures counts == map[]
    {
      counts := map[];
    }

    /** check_and_increment */
    method CheckAndIncrement(key: string, now: Time, windowSeconds: int, limit: int) returns (r: Result<Decision>)
      modifies this
      ensures (counts, r) == Hit(old(counts), Settings(windowSeconds, limit), key, now)
    {
      var window := if windowSeconds < 1 then 1 else windowSeconds;
      var bucket := WindowStart(now, window);
      var count := 1;
      if (key, bucket) in counts {
        if counts[(key, bucket)] == COUNT_MAX {
          return Err(NumericOverflow);
        }
        count := counts[(key, bucket)] + 1;
      }
      counts := counts[(key, bucket) := count];
      r := Ok(if count > Max(1, limit) then Limited else Allow);
    }

    /** reap_inbound_rate_limits */
    method ReapOld(now: Time, keepSeconds: int)
      modifies this
      ensures counts == Reap(old(counts), now, keepSeconds)
    {
      counts := map k | k in counts && k.1 >= now - keepSeconds * SECOND :: counts[k];
    }
  }

  function Hit(counts: Counts, s: Settings, key: string, now: Time): (Counts, Result<Decision>) {
    var k := (key, WindowStart(now, s.Window()));
    var stored := if k in counts then counts[k] else 0;
    if stored == COUNT_MAX then (counts, Err(NumericOverflow))
    else (counts[k := stored + 1], Ok(if stored + 1 > s.Cap() then Limited else Allow))
  }

  function Reap(counts: Counts, now: Time, keepSeconds: int): Counts {
    map k | k in counts && k.1 >= now - keepSeconds * SECOND :: counts[k]
  }

  // ---------------------------------------------------------------- runs

  /** Requests under any keys, and the daily reap of counters older than 24 hours. */
  datatype Op = Request(key: string, now: Time) | DailyReap(now: Time)

  function Step(counts: Counts, s: Settings, op: Op): Counts {
    match op
    case Request(key, now) => Hit(counts, s, key, now).0
    case DailyReap(now) => Reap(counts, now, DAY_SECONDS)
  }

  function Run(s: Settings, ops: seq<Op>): Counts {
    if ops == [] then map[] else Step(Run(s, ops[..|ops| - 1]), s, ops[|ops| - 1])
  }

  predicate Timely(ops: seq<Op>) {
    forall i, j :: 0 <= i < j < |ops| ==> ops[i].now <= ops[j].now
  }

  predicate InBucket(s: Settings, op: Op, key: string, bucket: Time) {
    op.Request? && op.key == key && WindowStart(op.now, s.Window()) == bucket
  }

  function Requests(s: Settings, ops: seq<Op>, key: string, bucket: Time): nat {
    if ops == [] then 0
    else Requests(s, ops[..|ops| - 1], key, bucket) + if InBucket(s, ops[|ops| - 1], key, bucket) then 1 else 0
  }

  /** The last operation of the run is a request that was let through. */
  predicate LastAllowed(s: Settings, ops: seq<Op>)
    requires ops != []
  {
    var op := ops[|ops| - 1];
    op.Request? && Hit(Run(s, ops[..|ops| - 1]), s, op.key, op.now).1 == Ok(Allow)
  }

  function Allows(s: Settings, ops: seq<Op>, key: string, bucket: Time): nat {
    if ops == [] then 0
    else
      Allows(s, ops[..|ops| - 1], key, bucket)
      + if InBucket(s, ops[|ops| - 1], key, bucket) && LastAllowed(s, ops) then 1 else 0
  }

  function Stored(counts: Counts, key: string, bucket: Time): int {
    if (key, bucket) in counts then counts[(key, bucket)] else 0
  }

  /** The number of the window holding `now`. */
  function WindowIndex(now: Time, window: int): int
    requires window > 0
  {
    now / SECOND / window
  }

  lemma Cancel(a: int, b: int, len: int)
    requires len > 0 && a * len < b * len
    ensures a < b
  {
  }

  /** Windows are numbered through and each is exactly one window long. */
  lemma WindowForm(now: Time, window: int)
    requires window > 0
    ensures var i := WindowIndex(now, window);
            && WindowStart(now, window) == i * (window * SECOND)
            && i * (window * SECOND) <= now < (i + 1) * (window * SECOND)
  {
    var secs := now / SECOND;
    var i := secs / window;
    assert secs == window * i + secs % window;
    assert window * i == i * window;
    assert (i + 1) * window == i * window + window;
    assert i * (window * SECOND) == i * window * SECOND && (i + 1) * (window * SECOND) == (i + 1) * window * SECOND;
  }

  lemma WindowBounds(now: Time, window: int)
    requires window > 0
    ensures WindowStart(now, window) <= now < WindowStart(now, window) + window * SECOND
  {
    WindowForm(now, window);
    var i, len := WindowIndex(now, window), window * SECOND;
    assert (i + 1) * len == i * len + len;
  }

  lemma WindowsAreOrdered(a: Time, b: Time, window: int)
    requires window > 0 && a <= b
    ensures WindowIndex(a, window) <= WindowIndex(b, window) && WindowStart(a, window) <= WindowStart(b, window)
  {
    WindowForm(a, window);
    WindowForm(b, window);
    var i, j, len := WindowIndex(a, window), WindowIndex(b, window), window * SECOND;
    Cancel(i, j + 1, len);
    assert j * len == i * len + (j - i) * len;
  }

  /** The counters of the present window and of later ones are exact: no reap has touched them. */
  lemma {:induction false} LiveCountersAreExact(s: Settings, ops: seq<Op>, key: string, bucket: Time)
    requires Timely(ops) && s.Window() <= DAY_SECONDS
    requires ops != [] ==> bucket >= WindowStart(ops[|ops| - 1].now, s.Window())
    ensures Stored(Run(s, ops), key, bucket) == Min(Requests(s, ops, key, bucket), COUNT_MAX)
  {
    if ops != [] {
      var init, op := ops[..|ops| - 1], ops[|ops| - 1];
      if init != [] {
        assert init[|init| - 1] == ops[|ops| - 2];
        WindowsAreOrdered(init[|init| - 1].now, op.now, s.Window());
      }
      LiveCountersAreExact(s, init, key, bucket);
      WindowBounds(op.now, s.Window());
      StepIsExact(Run(s, init), s, op, key, bucket, Requests(s, init, key, bucket));
    }
  }

  lemma StepIsExact(counts: Counts, s: Settings, op: Op, key: string, bucket: Time, n: nat)
    requires Stored(counts, key, bucket) == Min(n, COUNT_MAX)
    requires bucket > op.now - s.Window() * SECOND && s.Window() <= DAY_SECONDS
    ensures Stored(Step(counts, s, op), key, bucket) == Min(n + if InBucket(s, op, key, bucket) then 1 else 0, COUNT_MAX)
  {
    hide WindowStart;
  }

  /** With fixed settings and a clock that does not run back, each window lets through exactly the first
      `limit` of its requests, nightly reaps and other keys notwithstanding. */
  lemma {:induction false} AllowsAreCapped(s: Settings, ops: seq<Op>, key: string, bucket: Time)
    requires Timely(ops) && s.Window() <= DAY_SECONDS
    ensures Allows(s, ops, key, bucket) == Min(Requests(s, ops, key, bucket), Min(s.Cap(), COUNT_MAX))
  {
    if ops != [] {
      var init, op := ops[..|ops| - 1], ops[|ops| - 1];
      AllowsAreCapped(s, init, key, bucket);
      if InBucket(s, op, key, bucket) {
        if init != [] {
          assert init[|init| - 1] == ops[|ops| - 2];
          WindowsAreOrdered(init[|init| - 1].now, op.now, s.Window());
        }
        LiveCountersAreExact(s, init, key, bucket);
        hide WindowStart, Run;
      }
    }
  }

  // ---------------------------------------------------------------- sliding intervals

  /** Requests of a key let through in `[from, from + window)`, whatever the alignment. */
  function AllowsBetween(s: Settings, ops: seq<Op>, key: string, from: Time): nat {
    if ops == [] then 0
    else
      var op := ops[|ops| - 1];
      AllowsBetween(s, ops[..|ops| - 1], key, from)
      + if op.Request? && op.key == key && from <= op.now < from + s.Window() * SECOND && LastAllowed(s, ops) then 1 else 0
  }

  /** Such an interval meets at most the window of its start and the next. */
  lemma IntervalMeetsTwoWindows(now: Time, from: Time, window: int)
    requires window > 0 && from <= now < from + window * SECOND
    ensures var b := WindowStart(from, window);
            WindowStart(now, window) == b || WindowStart(now, window) == b + window * SECOND
  {
    WindowForm(from, window);
    WindowForm(now, window);
    WindowsAreOrdered(from, now, window);
    var p, q, len := WindowIndex(from, window), WindowIndex(now, window), window * SECOND;
    assert (p + 1) * len + len == (p + 2) * len;
    Cancel(q, p + 2, len);
    assert q == p || q == p + 1;
    assert (p + 1) * len == p * len + len;
  }

  lemma {:induction false} IntervalIsTwoWindows(s: Settings, ops: seq<Op>, key: string, from: Time)
    ensures var b := WindowStart(from, s.Window());
            AllowsBetween(s, ops, key, from)
            <= Allows(s, ops, key, b) + Allows(s, ops, key, b + s.Window() * SECOND)
  {
    if ops != [] {
      IntervalIsTwoWindows(s, ops[..|ops| - 1], key, from);
      var op := ops[|ops| - 1];
      if from <= op.now < from + s.Window() * SECOND {
        IntervalMeetsTwoWindows(op.now, from, s.Window());
      }
      hide WindowStart, LastAllowed;
    }
  }

  /** Any interval of one window's length sees at most twice the limit. */
  lemma BurstsAreBounded(s: Settings, ops: seq<Op>, key: string, from: Time)
    requires Timely(ops) && s.Window() <= DAY_SECONDS
    ensures AllowsBetween(s, ops, key, from) <= 2 * s.Cap()
  {
    var b := WindowStart(from, s.Window());
    IntervalIsTwoWindows(s, ops, key, from);
    AllowsAreCapped(s, ops, key, b);
    AllowsAreCapped(s, ops, key, b + s.Window() * SECOND);
  }

  /** The bound on the window is exact: with any longer window a reap can reset a live counter, and one
      window lets through more than the limit. */
  lemma LongWindowsCanBeReset(window: int)
    requires window > DAY_SECONDS
    ensures var s, late := Settings(window, 1), DAY_SECONDS * SECOND + 1;
            var ops := [Request("k", 0), DailyReap(late), Request("k", late)];
            Timely(ops) && Allows(s, ops, "k", 0) == 2
  {
    var s, late := Settings(window, 1), DAY_SECONDS * SECOND + 1;
    var a, b, c := Request("k", 0), DailyReap(late), Request("k", late);
    assert WindowStart(0, window) == 0 && WindowStart(late, window) == 0;
    assert [a, b, c][..2] == [a, b] && [a, b][..1] == [a] && [a][..0] == [];
    assert Run(s, [a]) == map[("k", 0) := 1];
    assert Run(s, [a, b]) == map[];
    assert LastAllowed(s, [a]) && LastAllowed(s, [a, b, c]);
    assert Allows(s, [a], "k", 0) == 1;
    assert Allows(s, [a, b], "k", 0) == 1;
  }
}
